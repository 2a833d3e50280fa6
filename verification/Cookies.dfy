/**
 Cookie values: base64url text (section 5 of RFC 4648), optionally signed or encrypted. Strings are
 bytes. The MAC and the authenticated cipher are parameters.
 */
module Cookies {
  import opened Prelude
  import opened Radix

  type Bytes = seq<Byte>

  const PAD: Byte := 61
  const COLON: Byte := 58

  /** The base64url alphabet, by character code. */
  function Symbol(digit: nat): Byte
    requires digit < 64
  {
    if digit < 26 then 65 + digit
    else if digit < 52 then 97 + (digit - 26)
    else if digit < 62 then 48 + (digit - 52)
    else if digit == 62 then 45 else 95
  }

  function DigitOf(c: Byte): Option<nat> {
    if 65 <= c <= 90 then Some(c - 65)
    else if 97 <= c <= 122 then Some(c - 97 + 26)
    else if 48 <= c <= 57 then Some(c - 48 + 52)
    else if c == 45 then Some(62)
    else if c == 95 then Some(63)
    else None
  }

  lemma SymbolRoundTrip(digit: nat)
    requires digit < 64
    ensures DigitOf(Symbol(digit)) == Some(digit) && Symbol(digit) != PAD
  {
  }

  /** The alphabet of section 5 of RFC 4648. */
  const ALPHABET := "ABCDEFGHIJKLMNOPQRSTUVWXYZ" + "abcdefghijklmnopqrstuvwxyz" + "0123456789-_"

  lemma LetterCode(i: nat)
    requires i < 26
    ensures "ABCDEFGHIJKLMNOPQRSTUVWXYZ"[i] as int == 65 + i && "abcdefghijklmnopqrstuvwxyz"[i] as int == 97 + i
  {
  }

  lemma SymbolByAlphabet(digit: nat)
    requires digit < 64
    ensures |ALPHABET| == 64 && Symbol(digit) == ALPHABET[digit] as int
  {
    if digit < 26 {
      LetterCode(digit);
    } else if digit < 52 {
      LetterCode(digit - 26);
    }
  }

  /** Only the alphabet's characters stand for digits. */
  lemma DigitOfIsSymbol(c: Byte, digit: nat)
    ensures DigitOf(c) == Some(digit) <==> digit < 64 && Symbol(digit) == c
  {
  }

  function Symbols(digits: seq<nat>): Bytes
    requires forall i :: 0 <= i < |digits| ==> digits[i] < 64
  {
    seq(|digits|, i requires 0 <= i < |digits| => Symbol(digits[i]))
  }

  /** The digits of some characters, if all are in the alphabet. */
  function DigitsOf(cs: Bytes): (r: Option<seq<nat>>)
    ensures r.Some? ==> |r.value| == |cs| && forall i :: 0 <= i < |cs| ==> r.value[i] < 64
  {
    if |cs| == 0 then Some([])
    else
      var front := DigitsOf(cs[..|cs| - 1]);
      var last := DigitOf(cs[|cs| - 1]);
      if front.None? || last.None? then None else Some(front.value + [last.value])
  }

  lemma {:induction false} SymbolsRoundTrip(digits: seq<nat>)
    requires forall i :: 0 <= i < |digits| ==> digits[i] < 64
    ensures DigitsOf(Symbols(digits)) == Some(digits)
    ensures PAD !in Symbols(digits)
  {
    var n := |digits|;
    if n == 0 {
      assert Symbols(digits) == [];
    } else {
      SymbolsRoundTrip(digits[..n - 1]);
      SymbolRoundTrip(digits[n - 1]);
      assert Symbols(digits)[..n - 1] == Symbols(digits[..n - 1]);
      assert Symbols(digits) == Symbols(digits[..n - 1]) + [Symbol(digits[n - 1])];
      assert digits == digits[..n - 1] + [digits[n - 1]];
    }
  }

  function OneByte(a: int): int { a * 16 }

  function TwoBytes(a: int, b: int): int { (a * 256 + b) * 4 }

  /** Three bytes fill four characters; one or two left over are padded out. */
  function Encode(bytes: Bytes): Bytes {
    if |bytes| == 0 then []
    else if |bytes| == 1 then Symbols(Digits(OneByte(bytes[0]), 64, 2)) + [PAD, PAD]
    else if |bytes| == 2 then Symbols(Digits(TwoBytes(bytes[0], bytes[1]), 64, 3)) + [PAD]
    else Symbols(Digits(Value(bytes[..3], 256), 64, 4)) + Encode(bytes[3..])
  }

  /** Four characters at a time; padding only at the very end; bits left over under padding are ignored. */
  function Decode(cs: Bytes): Option<Bytes> {
    if |cs| == 0 then Some([])
    else if |cs| < 4 then None
    else if cs[3] != PAD then
      var digits, rest := DigitsOf(cs[..4]), Decode(cs[4..]);
      if digits.None? || rest.None? then None else Some(Digits(Value(digits.value, 64), 256, 3) + rest.value)
    else if |cs| != 4 then None
    else if cs[2] != PAD then
      var digits := DigitsOf(cs[..3]);
      if digits.None? then None else Some(Digits(Value(digits.value, 64) / 4, 256, 2))
    else
      var digits := DigitsOf(cs[..2]);
      if digits.None? then None else Some(Digits(Value(digits.value, 64) / 16, 256, 1))
  }

  lemma PairDigits(a: Byte, b: Byte)
    ensures Digits(a * 256 + b, 256, 2) == [a, b] && Digits(a, 256, 1) == [a]
  {
    assert Digits(a, 256, 0) == [] && Digits(0, 256, 0) == [];
    assert (a * 256 + b) / 256 == a && (a * 256 + b) % 256 == b;
    assert Digits(a, 256, 1) == Digits(a / 256, 256, 0) + [a % 256];
    assert Digits(a * 256 + b, 256, 2) == Digits(a, 256, 1) + [b];
  }

  lemma DecodeTwoPads(digits: seq<nat>, v: nat)
    requires |digits| == 2 && forall i :: 0 <= i < 2 ==> digits[i] < 64
    requires Value(digits, 64) == v
    ensures Decode(Symbols(digits) + [PAD, PAD]) == Some(Digits(v / 16, 256, 1))
  {
    SymbolsRoundTrip(digits);
    var cs := Symbols(digits) + [PAD, PAD];
    assert cs[..2] == Symbols(digits) && cs[2] == PAD && cs[3] == PAD;
  }

  lemma EncodeOne(a: Byte)
    ensures Decode(Symbols(Digits(OneByte(a), 64, 2)) + [PAD, PAD]) == Some([a])
  {
    var v := OneByte(a);
    assert Pow(64, 2) == 4096;
    ValueOfDigits(v, 64, 2);
    DecodeTwoPads(Digits(v, 64, 2), v);
    PairDigits(a, 0);
    assert v / 16 == a;
  }

  lemma DecodeOnePad(digits: seq<nat>, v: nat)
    requires |digits| == 3 && forall i :: 0 <= i < 3 ==> digits[i] < 64
    requires Value(digits, 64) == v
    ensures Decode(Symbols(digits) + [PAD]) == Some(Digits(v / 4, 256, 2))
  {
    SymbolsRoundTrip(digits);
    var cs := Symbols(digits) + [PAD];
    assert cs[..3] == Symbols(digits) && cs[2] == Symbols(digits)[2] && cs[3] == PAD;
  }

  lemma EncodeTwo(a: Byte, b: Byte)
    ensures Decode(Symbols(Digits(TwoBytes(a, b), 64, 3)) + [PAD]) == Some([a, b])
  {
    var v := TwoBytes(a, b);
    assert Pow(64, 3) == 262144;
    ValueOfDigits(v, 64, 3);
    DecodeOnePad(Digits(v, 64, 3), v);
    PairDigits(a, b);
    assert v / 4 == a * 256 + b;
  }

  lemma EncodeBlock(bytes: Bytes)
    requires |bytes| == 3
    ensures var cs := Symbols(Digits(Value(bytes, 256), 64, 4));
      && PAD !in cs && DigitsOf(cs).Some? && Digits(Value(DigitsOf(cs).value, 64), 256, 3) == bytes
  {
    assert Pow(256, 3) == Pow(64, 4);
    DigitsOfValue(bytes, 256);
    SymbolsRoundTrip(Digits(Value(bytes, 256), 64, 4));
    ValueOfDigits(Value(bytes, 256), 64, 4);
  }

  lemma DecodeBlock(block: Bytes, rest: Bytes)
    requires |block| == 4 && PAD !in block && DigitsOf(block).Some? && Decode(rest).Some?
    ensures Decode(block + rest) == Some(Digits(Value(DigitsOf(block).value, 64), 256, 3) + Decode(rest).value)
  {
    var cs := block + rest;
    assert cs[..4] == block && cs[4..] == rest && cs[3] == block[3];
  }

  /** Decoding undoes encoding, for any bytes. */
  lemma {:induction false} Base64RoundTrip(bytes: Bytes)
    ensures Decode(Encode(bytes)) == Some(bytes)
  {
    if |bytes| == 0 {
    } else if |bytes| == 1 {
      EncodeOne(bytes[0]);
      assert bytes == [bytes[0]];
    } else if |bytes| == 2 {
      EncodeTwo(bytes[0], bytes[1]);
      assert bytes == [bytes[0], bytes[1]];
    } else {
      EncodeBlock(bytes[..3]);
      Base64RoundTrip(bytes[3..]);
      DecodeBlock(Symbols(Digits(Value(bytes[..3], 256), 64, 4)), Encode(bytes[3..]));
      assert bytes == bytes[..3] + bytes[3..];
    }
  }

  // --- What the text says --------------------------------------------------------------------

  /** The padding characters behind `n` bytes, and the factor the spare bits in front of them make. */
  function Padding(n: nat): Bytes {
    if n % 3 == 0 then [] else if n % 3 == 1 then [PAD, PAD] else [PAD]
  }

  function Spare(n: nat): nat {
    if n % 3 == 0 then 1 else if n % 3 == 1 then 16 else 4
  }

  /** The digits of the text, without the padding. */
  function Sextets(bytes: Bytes): (r: seq<nat>)
    ensures forall i :: 0 <= i < |r| ==> r[i] < 64
  {
    if |bytes| == 0 then []
    else if |bytes| == 1 then Digits(OneByte(bytes[0]), 64, 2)
    else if |bytes| == 2 then Digits(TwoBytes(bytes[0], bytes[1]), 64, 3)
    else Digits(Value(bytes[..3], 256), 64, 4) + Sextets(bytes[3..])
  }

  lemma SymbolsConcat(a: seq<nat>, b: seq<nat>)
    requires forall i :: 0 <= i < |a| ==> a[i] < 64
    requires forall i :: 0 <= i < |b| ==> b[i] < 64
    ensures Symbols(a + b) == Symbols(a) + Symbols(b)
  {
  }

  /** The text is these digits, and then padding. */
  ghost predicate IsText(text: Bytes, digits: seq<nat>, n: nat) {
    && (forall i :: 0 <= i < |digits| ==> digits[i] < 64)
    && text == Symbols(digits) + Padding(n) && |text| == (n + 2) / 3 * 4
  }

  lemma TailText(digits: seq<nat>, n: nat)
    requires 1 <= n <= 2 && |digits| == n + 1 && forall i :: 0 <= i < |digits| ==> digits[i] < 64
    ensures IsText(Symbols(digits) + Padding(n), digits, n)
  {
  }

  lemma ShortText(bytes: Bytes)
    requires |bytes| < 3
    ensures IsText(Encode(bytes), Sextets(bytes), |bytes|)
  {
    if |bytes| == 0 {
      assert Symbols([]) == [];
    } else if |bytes| == 1 {
      TailText(Digits(OneByte(bytes[0]), 64, 2), 1);
    } else {
      TailText(Digits(TwoBytes(bytes[0], bytes[1]), 64, 3), 2);
    }
  }

  lemma LongerText(front: seq<nat>, text: Bytes, digits: seq<nat>, n: nat)
    requires |front| == 4 && (forall i :: 0 <= i < |front| ==> front[i] < 64) && IsText(text, digits, n)
    ensures IsText(Symbols(front) + text, front + digits, n + 3)
  {
    SymbolsConcat(front, digits);
    assert Padding(n + 3) == Padding(n);
    assert Symbols(front) + (Symbols(digits) + Padding(n)) == Symbols(front) + Symbols(digits) + Padding(n);
  }

  lemma {:induction false} EncodeIsSextets(bytes: Bytes)
    ensures IsText(Encode(bytes), Sextets(bytes), |bytes|)
  {
    if |bytes| < 3 {
      ShortText(bytes);
    } else {
      EncodeIsSextets(bytes[3..]);
      LongerText(Digits(Value(bytes[..3], 256), 64, 4), Encode(bytes[3..]), Sextets(bytes[3..]), |bytes[3..]|);
    }
  }

  /** As numbers, the digits are the bytes and the spare bits. */
  ghost predicate Says(digits: seq<nat>, bytes: Bytes) {
    && Value(digits, 64) == Value(bytes, 256) * Spare(|bytes|)
    && Pow(64, |digits|) == Pow(256, |bytes|) * Spare(|bytes|)
  }

  lemma ShortValues(bytes: Bytes)
    requires |bytes| < 3
    ensures Value(Sextets(bytes), 64) == Value(bytes, 256) * Spare(|bytes|)
    ensures Pow(64, |Sextets(bytes)|) == Pow(256, |bytes|) * Spare(|bytes|)
  {
    assert Pow(64, 2) == 4096 && Pow(64, 3) == 262144;
    assert Pow(256, 1) == 256 && Pow(256, 2) == 65536;
    if |bytes| == 1 {
      assert bytes[..0] == [];
      ValueOfDigits(OneByte(bytes[0]), 64, 2);
    } else if |bytes| == 2 {
      assert bytes[..1][..0] == [];
      ValueOfDigits(TwoBytes(bytes[0], bytes[1]), 64, 3);
    }
  }

  lemma BlockValue(block: Bytes)
    requires |block| == 3
    ensures Value(Digits(Value(block, 256), 64, 4), 64) == Value(block, 256)
  {
    assert Pow(256, 3) == Pow(64, 4);
    DigitsOfValue(block, 256);
    ValueOfDigits(Value(block, 256), 64, 4);
  }

  lemma {:induction false} PowAdd(base: nat, m: nat, n: nat)
    ensures Pow(base, m + n) == Pow(base, m) * Pow(base, n)
  {
    if m == 0 {
    } else {
      PowAdd(base, m - 1, n);
      assert base * (Pow(base, m - 1) * Pow(base, n)) == base * Pow(base, m - 1) * Pow(base, n);
    }
  }

  /** One more block in front: the same factor on both sides. */
  lemma InFront(v: nat, p: nat, x: nat, q: nat, y: nat, k: nat)
    requires p == q * k && x == y * k
    ensures v * p + x == (v * q + y) * k
  {
    assert v * (q * k) == v * q * k;
    assert (v * q + y) * k == v * q * k + y * k;
  }

  lemma BlockInFront(block: Bytes, rest: Bytes, digits: seq<nat>, k: nat)
    requires |block| == 3 && Value(digits, 64) == Value(rest, 256) * k && Pow(64, |digits|) == Pow(256, |rest|) * k
    ensures var all := Digits(Value(block, 256), 64, 4) + digits;
      Value(all, 64) == Value(block + rest, 256) * k && Pow(64, |all|) == Pow(256, |block + rest|) * k
  {
    var front := Digits(Value(block, 256), 64, 4);
    BlockValue(block);
    ValueConcat(front, digits, 64);
    ValueConcat(block, rest, 256);
    InFront(Value(block, 256), Pow(64, |digits|), Value(digits, 64), Pow(256, |rest|), Value(rest, 256), k);
    PowAdd(64, 4, |digits|);
    PowAdd(256, 3, |rest|);
    assert Pow(64, 4) == Pow(256, 3);
    InFront(Pow(256, 3), Pow(64, |digits|), 0, Pow(256, |rest|), 0, k);
  }

  lemma LongerSays(bytes: Bytes, digits: seq<nat>)
    requires |bytes| >= 3 && Says(digits, bytes[3..])
    ensures Says(Digits(Value(bytes[..3], 256), 64, 4) + digits, bytes)
  {
    assert Spare(|bytes[3..]|) == Spare(|bytes|);
    BlockInFront(bytes[..3], bytes[3..], digits, Spare(|bytes|));
    assert bytes == bytes[..3] + bytes[3..];
  }

  lemma {:induction false} SextetsValue(bytes: Bytes)
    ensures Says(Sextets(bytes), bytes)
  {
    if |bytes| < 3 {
      ShortValues(bytes);
    } else {
      SextetsValue(bytes[3..]);
      LongerSays(bytes, Sextets(bytes[3..]));
    }
  }

  /**
   What base64url is: the text is as long as four characters for every three bytes begun; it ends in padding where
   the last three are not complete; and read as a number in base 64 the rest is the bytes read in base 256, followed
   by four or two zero bits before one or two padding characters.
   */
  lemma EncodeSays(bytes: Bytes) returns (digits: seq<nat>)
    ensures |Encode(bytes)| == (|bytes| + 2) / 3 * 4
    ensures |digits| == |Encode(bytes)| - (if |bytes| % 3 == 1 then 2 else if |bytes| % 3 == 2 then 1 else 0)
    ensures forall i :: 0 <= i < |digits| ==>
      && digits[i] < 64
      && Encode(bytes)[i] == ("ABCDEFGHIJKLMNOPQRSTUVWXYZ" + "abcdefghijklmnopqrstuvwxyz" + "0123456789-_")[digits[i]] as int
    ensures forall i :: |digits| <= i < |Encode(bytes)| ==> Encode(bytes)[i] == '=' as int
    ensures Value(digits, 64) == Value(bytes, 256) * (if |bytes| % 3 == 1 then 16 else if |bytes| % 3 == 2 then 4 else 1)
  {
    digits := Sextets(bytes);
    EncodeIsSextets(bytes);
    SextetsValue(bytes);
    forall i | 0 <= i < |digits|
      ensures Encode(bytes)[i] == ALPHABET[digits[i]] as int
    {
      SymbolByAlphabet(digits[i]);
    }
  }

  /** Where the padding of a text starts: its last one or two characters, as far as they are padding. */
  function PaddedFrom(cs: Bytes): (n: nat)
    ensures n <= |cs|
  {
    if |cs| < 2 || cs[|cs| - 1] != PAD then |cs|
    else if cs[|cs| - 2] != PAD then |cs| - 1
    else |cs| - 2
  }

  ghost predicate InAlphabet(cs: Bytes, n: nat)
    requires n <= |cs|
  {
    forall i :: 0 <= i < n ==> DigitOf(cs[i]).Some?
  }

  lemma {:induction false} DigitsOfIff(cs: Bytes)
    ensures DigitsOf(cs).Some? <==> InAlphabet(cs, |cs|)
  {
    if |cs| == 0 {
    } else {
      DigitsOfIff(cs[..|cs| - 1]);
    }
  }

  lemma DecodeLast(cs: Bytes)
    requires |cs| == 4
    ensures Decode(cs).Some? <==> InAlphabet(cs, PaddedFrom(cs))
  {
    assert DigitOf(PAD).None?;
    DigitsOfIff(cs);
    DigitsOfIff(cs[..3]);
    DigitsOfIff(cs[..2]);
    assert Decode([]) == Some([]);
    assert cs[4..] == [] && cs[..4] == cs;
  }

  /** What can be decoded: a multiple of four characters, all in the alphabet but for one or two of padding at the end. */
  lemma {:induction false} DecodeIff(cs: Bytes)
    ensures Decode(cs).Some? <==> |cs| % 4 == 0 && InAlphabet(cs, PaddedFrom(cs))
  {
    assert DigitOf(PAD).None?;
    if |cs| == 4 {
      DecodeLast(cs);
    } else if |cs| > 4 {
      DecodeIff(cs[4..]);
      DigitsOfIff(cs[..4]);
      assert (|cs| - 4) % 4 == 0 <==> |cs| % 4 == 0;
      if |cs| % 4 == 0 {
        assert |cs| >= 8;
        assert PaddedFrom(cs) == PaddedFrom(cs[4..]) + 4;
        assert forall i :: 4 <= i < |cs| ==> cs[i] == cs[4..][i - 4];
      }
    }
  }

  // --- Signing -------------------------------------------------------------------------------

  const MAC_SIZE := 32

  function Signed(mac: Bytes -> Bytes, name: Bytes, value: Bytes): Bytes {
    mac(name + value) + value
  }

  function OpenSigned(mac: Bytes -> Bytes, name: Bytes, payload: Bytes): Option<Bytes> {
    if |payload| < MAC_SIZE then None
    else
      var signature, value := payload[..MAC_SIZE], payload[MAC_SIZE..];
      if signature == mac(name + value) then Some(value) else None
  }

  // --- Encryption ----------------------------------------------------------------------------

  const NONCE_SIZE := 12

  /** An authenticated cipher under a fixed key. */
  datatype Aead = Aead(seal: (Bytes, Bytes) -> Bytes, open: (Bytes, Bytes) -> Option<Bytes>)

  /** Opening undoes sealing. */
  ghost predicate Correct(aead: Aead) {
    forall nonce: Bytes, plain: Bytes :: aead.open(nonce, aead.seal(nonce, plain)) == Some(plain)
  }

  function Encrypted(aead: Aead, nonce: Bytes, name: Bytes, value: Bytes): Bytes {
    nonce + aead.seal(nonce, name + [COLON] + value)
  }

  /** The text before and after the first colon, if there is one. */
  function CutColon(text: Bytes): Option<(Bytes, Bytes)> {
    if |text| == 0 then None
    else if text[0] == COLON then Some(([], text[1..]))
    else match CutColon(text[1..])
      case None => None
      case Some((before, after)) => Some(([text[0]] + before, after))
  }

  function OpenEncrypted(aead: Aead, name: Bytes, payload: Bytes): Option<Bytes> {
    if |payload| < NONCE_SIZE then None
    else
      var plain := aead.open(payload[..NONCE_SIZE], payload[NONCE_SIZE..]);
      if plain.None? then None
      else
        var parts := CutColon(plain.value);
        if parts.Some? && parts.value.0 == name then Some(parts.value.1) else None
  }

  lemma {:induction false} CutAtName(name: Bytes, value: Bytes)
    ensures CutColon(name + [COLON] + value).Some?
    ensures COLON !in name ==> CutColon(name + [COLON] + value).value == (name, value)
    ensures COLON in name ==> |CutColon(name + [COLON] + value).value.0| < |name|
  {
    var text := name + [COLON] + value;
    if |name| == 0 {
      assert text[1..] == value;
    } else if name[0] != COLON {
      CutAtName(name[1..], value);
      assert text[1..] == name[1..] + [COLON] + value;
      assert name == [name[0]] + name[1..];
    }
  }

  lemma {:induction false} CutParts(text: Bytes)
    ensures CutColon(text).Some? ==>
      var (before, after) := CutColon(text).value;
      COLON !in before && text == before + [COLON] + after
  {
    if |text| == 0 {
    } else {
      CutParts(text[1..]);
      assert text == [text[0]] + text[1..];
    }
  }

  // --- Round trips ---------------------------------------------------------------------------

  lemma SignedRoundTrip(mac: Bytes -> Bytes, name: Bytes, value: Bytes)
    requires |mac(name + value)| == MAC_SIZE
    ensures OpenSigned(mac, name, Signed(mac, name, value)) == Some(value)
  {
    assert Signed(mac, name, value)[..MAC_SIZE] == mac(name + value);
    assert Signed(mac, name, value)[MAC_SIZE..] == value;
  }

  /** An encrypted value comes back, colons and all, exactly when the cookie's name has no colon; otherwise it is refused. */
  lemma EncryptedRoundTripIff(aead: Aead, nonce: Bytes, name: Bytes, value: Bytes)
    requires Correct(aead) && |nonce| == NONCE_SIZE
    ensures OpenEncrypted(aead, name, Encrypted(aead, nonce, name, value)) == if COLON in name then None else Some(value)
  {
    var payload := Encrypted(aead, nonce, name, value);
    assert payload[..NONCE_SIZE] == nonce;
    assert payload[NONCE_SIZE..] == aead.seal(nonce, name + [COLON] + value);
    CutAtName(name, value);
  }

  const MAX_COOKIE := 4096

  datatype WriteError = ValueTooLong

  datatype ReadError = NoCookie | InvalidValue

  datatype ReadResult = Got(value: Bytes) | Refused(error: ReadError)

  /** The cookies one response sets and the next request sends back. `attributes` is the length of the rest of the header. */
  class Jar {
    var cookies: map<Bytes, Bytes>

    constructor ()
      ensures cookies == map[]
    {
      cookies := map[];
    }

    method Write(name: Bytes, value: Bytes, attributes: nat) returns (err: Option<WriteError>)
      modifies this
      ensures err.Some? <==> |name| + 1 + |Encode(value)| + attributes > 4096
      ensures err.Some? ==> cookies == old(cookies)
      ensures err.None? ==> cookies == old(cookies)[name := Encode(value)]
    {
      var text := Encode(value);
      if |name| + 1 + |text| + attributes > MAX_COOKIE {
        return Some(ValueTooLong);
      }
      cookies := cookies[name := text];
      err := None;
    }

    method Read(name: Bytes) returns (r: ReadResult)
      ensures name !in cookies ==> r == Refused(NoCookie)
      ensures name in cookies ==> r == match Decode(cookies[name]) case Some(v) => Got(v) case None => Refused(InvalidValue)
      ensures forall v :: name in cookies && cookies[name] == Encode(v) ==> r == Got(v)
    {
      if name !in cookies {
        return Refused(NoCookie);
      }
      forall v | cookies[name] == Encode(v)
        ensures Decode(cookies[name]) == Some(v)
      {
        Base64RoundTrip(v);
      }
      var value := Decode(cookies[name]);
      r := if value.Some? then Got(value.value) else Refused(InvalidValue);
    }

    method WriteSigned(name: Bytes, value: Bytes, attributes: nat, mac: Bytes -> Bytes) returns (err: Option<WriteError>)
      modifies this
      ensures err.Some? <==> |name| + 1 + |Encode(mac(name + value) + value)| + attributes > 4096
      ensures err.Some? ==> cookies == old(cookies)
      ensures err.None? ==> cookies == old(cookies)[name := Encode(Signed(mac, name, value))]
      ensures err.None? ==> cookies == old(cookies)[name := Encode(mac(name + value) + value)]
    {
      err := Write(name, mac(name + value) + value, attributes);
    }

    /** Whatever was written signed under this name and key comes back. */
    method ReadSigned(name: Bytes, mac: Bytes -> Bytes) returns (r: ReadResult)
      requires forall m :: |mac(m)| == 32
      ensures forall v :: name in cookies && cookies[name] == Encode(Signed(mac, name, v)) ==> r == Got(v)
      ensures r.Got? ==> name in cookies && Decode(cookies[name]) == Some(mac(name + r.value) + r.value)
    {
      r := Read(name);
      if r.Got? {
        var payload := r.value;
        forall v | payload == Signed(mac, name, v)
          ensures OpenSigned(mac, name, payload) == Some(v)
        {
          SignedRoundTrip(mac, name, v);
        }
        if |payload| < MAC_SIZE {
          return Refused(InvalidValue);
        }
        var signature, value := payload[..MAC_SIZE], payload[MAC_SIZE..];
        if signature != mac(name + value) {
          return Refused(InvalidValue);
        }
        assert payload == signature + value;
        r := Got(value);
      }
    }

    method WriteEncrypted(name: Bytes, value: Bytes, attributes: nat, aead: Aead, nonce: Bytes) returns (err: Option<WriteError>)
      requires |nonce| == 12
      modifies this
      ensures err.Some? <==> |name| + 1 + |Encode(nonce + aead.seal(nonce, name + [58] + value))| + attributes > 4096
      ensures err.Some? ==> cookies == old(cookies)
      ensures err.None? ==> cookies == old(cookies)[name := Encode(Encrypted(aead, nonce, name, value))]
      ensures err.None? ==> cookies == old(cookies)[name := Encode(nonce + aead.seal(nonce, name + [58] + value))]
    {
      err := Write(name, nonce + aead.seal(nonce, name + [COLON] + value), attributes);
    }

    /**
     Whatever was written encrypted under this colon-free name and key comes back; nothing is accepted that does
     not open to this name and the value.
     */
    method ReadEncrypted(name: Bytes, aead: Aead) returns (r: ReadResult)
      requires Correct(aead)
      ensures forall v, nonce :: name in cookies && |nonce| == 12 && cookies[name] == Encode(Encrypted(aead, nonce, name, v)) ==>
        r == if 58 in name then Refused(InvalidValue) else Got(v)
      ensures r.Got? ==>
        && 58 !in name && name in cookies && Decode(cookies[name]).Some? && |Decode(cookies[name]).value| >= 12
        && var payload := Decode(cookies[name]).value;
           aead.open(payload[..12], payload[12..]) == Some(name + [58] + r.value)
    {
      r := Read(name);
      if r.Got? {
        var payload := r.value;
        forall v, nonce | |nonce| == NONCE_SIZE && payload == Encrypted(aead, nonce, name, v)
          ensures OpenEncrypted(aead, name, payload) == if COLON in name then None else Some(v)
        {
          EncryptedRoundTripIff(aead, nonce, name, v);
        }
        var plain := OpenEncrypted(aead, name, payload);
        if plain.Some? { CutParts(aead.open(payload[..NONCE_SIZE], payload[NONCE_SIZE..]).value); }
        r := if plain.Some? then Got(plain.value) else Refused(InvalidValue);
      }
    }
  }
}
