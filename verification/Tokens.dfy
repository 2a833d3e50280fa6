/** Session IDs and transaction IDs: sixteen random bytes in unpadded lower-case base32 (section 6 of RFC 4648). */
module Tokens {
  import opened Prelude
  import opened Radix

  const TOKEN_BYTES := 16
  const TOKEN_LENGTH := 26

  function Letter(digit: nat): (c: char)
    requires digit < 32
    ensures 'a' <= c <= 'z' || '2' <= c <= '7'
  {
    if digit < 26 then 'a' + digit as char else '2' + (digit - 26) as char
  }

  function Letters(digits: seq<nat>): (s: string)
    requires forall i :: 0 <= i < |digits| ==> digits[i] < 32
    ensures |s| == |digits| && forall i :: 0 <= i < |s| ==> 'a' <= s[i] <= 'z' || '2' <= s[i] <= '7'
  {
    seq(|digits|, i requires 0 <= i < |digits| => Letter(digits[i]))
  }

  /** Five bytes fill eight letters. */
  function Block(bytes: seq<Byte>): seq<nat>
    requires |bytes| == 5
  {
    Digits(Value(bytes, 256), 32, 8)
  }

  /** A single byte at the end fills two letters, the last two bits being zero. */
  function Tail(b: Byte): seq<nat> {
    Digits(b * 4, 32, 2)
  }

  function Quintets(bytes: seq<Byte>): (r: seq<nat>)
    requires |bytes| == TOKEN_BYTES
    ensures |r| == TOKEN_LENGTH && forall i :: 0 <= i < |r| ==> r[i] < 32
  {
    Block(bytes[..5]) + Block(bytes[5..10]) + Block(bytes[10..15]) + Tail(bytes[15])
  }

  function Encode(bytes: seq<Byte>): string
    requires |bytes| == TOKEN_BYTES
  {
    Letters(Quintets(bytes))
  }

  lemma LettersInjective(a: seq<nat>, b: seq<nat>)
    requires forall i :: 0 <= i < |a| ==> a[i] < 32
    requires forall i :: 0 <= i < |b| ==> b[i] < 32
    requires Letters(a) == Letters(b)
    ensures a == b
  {
    assert |a| == |b|;
    forall i | 0 <= i < |a|
      ensures a[i] == b[i]
    {
      assert Letters(a)[i] == Letter(a[i]) && Letters(b)[i] == Letter(b[i]);
    }
  }

  lemma BlockInjective(a: seq<Byte>, b: seq<Byte>)
    requires |a| == |b| == 5 && Block(a) == Block(b)
    ensures a == b
  {
    assert Pow(256, 5) == Pow(32, 8);
    DigitsOfValue(a, 256);
    DigitsOfValue(b, 256);
    ValueOfDigits(Value(a, 256), 32, 8);
    ValueOfDigits(Value(b, 256), 32, 8);
  }

  lemma TailInjective(a: Byte, b: Byte)
    requires Tail(a) == Tail(b)
    ensures a == b
  {
    assert Pow(32, 2) == 1024;
    ValueOfDigits(a * 4, 32, 2);
    ValueOfDigits(b * 4, 32, 2);
  }

  /** Concatenations of pieces of the same lengths are equal only if the pieces are. */
  lemma SamePieces<T>(a: seq<T>, b: seq<T>, c: seq<T>, d: seq<T>)
    requires |a| == |c| && a + b == c + d
    ensures a == c && b == d
  {
    assert a == (a + b)[..|a|] && b == (a + b)[|a|..];
    assert c == (c + d)[..|a|] && d == (c + d)[|a|..];
  }

  lemma BytesOfPieces(bytes: seq<Byte>)
    requires |bytes| == TOKEN_BYTES
    ensures bytes == bytes[..5] + bytes[5..10] + bytes[10..15] + [bytes[15]]
  {
  }

  lemma QuintetsInjective(a: seq<Byte>, b: seq<Byte>)
    requires |a| == |b| == TOKEN_BYTES && Quintets(a) == Quintets(b)
    ensures a == b
  {
    var a1, a2, a3, a4 := Block(a[..5]), Block(a[5..10]), Block(a[10..15]), Tail(a[15]);
    var b1, b2, b3, b4 := Block(b[..5]), Block(b[5..10]), Block(b[10..15]), Tail(b[15]);
    SamePieces(a1 + a2 + a3, a4, b1 + b2 + b3, b4);
    SamePieces(a1 + a2, a3, b1 + b2, b3);
    SamePieces(a1, a2, b1, b2);
    BytesOfPieces(a);
    BytesOfPieces(b);
    BlockInjective(a[..5], b[..5]);
    BlockInjective(a[5..10], b[5..10]);
    BlockInjective(a[10..15], b[10..15]);
    TailInjective(a[15], b[15]);
  }

  /** Distinct bytes give distinct IDs; every ID is 26 characters over a-z and 2-7. */
  lemma TokensAreDistinct(a: seq<Byte>, b: seq<Byte>)
    requires |a| == |b| == TOKEN_BYTES
    ensures Encode(a) == Encode(b) <==> a == b
    ensures |Encode(a)| == TOKEN_LENGTH && forall c :: c in Encode(a) ==> 'a' <= c <= 'z' || '2' <= c <= '7'
  {
    if Encode(a) == Encode(b) {
      LettersInjective(Quintets(a), Quintets(b));
      QuintetsInjective(a, b);
    }
  }

  // --- What an ID says -----------------------------------------------------------------------

  /** The alphabet of section 6 of RFC 4648, lower-cased. */
  const ALPHABET := "abcdefghijklmnopqrstuvwxyz234567"

  lemma LetterByAlphabet(digit: nat)
    requires digit < 32
    ensures |ALPHABET| == 32 && Letter(digit) == ALPHABET[digit]
  {
  }

  lemma BlockValue(bytes: seq<Byte>)
    requires |bytes| == 5
    ensures Value(Block(bytes), 32) == Value(bytes, 256)
  {
    assert Pow(256, 5) == Pow(32, 8);
    DigitsOfValue(bytes, 256);
    ValueOfDigits(Value(bytes, 256), 32, 8);
  }

  lemma TailValue(b: Byte)
    ensures Value(Tail(b), 32) == b * 4
  {
    assert Pow(32, 2) == 1024;
    ValueOfDigits(b * 4, 32, 2);
  }

  /** What holds of the parts holds of the whole: base 32 on the left, base 256 on the right. */
  lemma SameValue(a: seq<nat>, b: seq<nat>, bytesA: seq<nat>, bytesB: seq<nat>)
    requires Value(a, 32) == Value(bytesA, 256) && Value(b, 32) == Value(bytesB, 256)
    requires Pow(32, |b|) == Pow(256, |bytesB|)
    ensures Value(a + b, 32) == Value(bytesA + bytesB, 256)
  {
    ValueConcat(a, b, 32);
    ValueConcat(bytesA, bytesB, 256);
  }

  lemma PowersUsed()
    ensures Pow(256, 5) == Pow(32, 8) == 0x100_0000_0000 && Pow(256, 1) == 256 && Pow(32, 2) == 1024
  {
  }

  lemma BlocksValue(a: seq<Byte>, b: seq<Byte>, c: seq<Byte>)
    requires |a| == |b| == |c| == 5
    ensures Value(Block(a) + Block(b) + Block(c), 32) == Value(a + b + c, 256)
  {
    BlockValue(a);
    BlockValue(b);
    BlockValue(c);
    PowersUsed();
    SameValue(Block(a), Block(b), a, b);
    SameValue(Block(a) + Block(b), Block(c), a + b, c);
  }

  lemma WithTailValue(digits: seq<nat>, bytes: seq<nat>, b: Byte)
    requires Value(digits, 32) == Value(bytes, 256)
    ensures Value(digits + Tail(b), 32) == Value(bytes + [b], 256) * 4
  {
    ValueConcat(digits, Tail(b), 32);
    ValueConcat(bytes, [b], 256);
    TailValue(b);
    PowersUsed();
    var d: seq<nat> := [b];
    assert d[..0] == [] && Value(d, 256) == b;
  }

  lemma JoinedValue(a: seq<Byte>, b: seq<Byte>, c: seq<Byte>, d: Byte, bytes: seq<Byte>)
    requires |a| == |b| == |c| == 5 && bytes == a + b + c + [d]
    ensures Value(Block(a) + Block(b) + Block(c) + Tail(d), 32) == Value(bytes, 256) * 4
  {
    BlocksValue(a, b, c);
    WithTailValue(Block(a) + Block(b) + Block(c), a + b + c, d);
  }

  lemma QuintetsValue(bytes: seq<Byte>)
    requires |bytes| == TOKEN_BYTES
    ensures Value(Quintets(bytes), 32) == Value(bytes, 256) * 4
  {
    BytesOfPieces(bytes);
    JoinedValue(bytes[..5], bytes[5..10], bytes[10..15], bytes[15], bytes);
  }

  /** Read as a number in base 32, an ID is its bytes read in base 256, followed by two zero bits. */
  lemma TokenSays(bytes: seq<Byte>) returns (digits: seq<nat>)
    requires |bytes| == 16
    ensures |digits| == |Encode(bytes)| == 26
    ensures forall i :: 0 <= i < 26 ==> digits[i] < 32 && Encode(bytes)[i] == "abcdefghijklmnopqrstuvwxyz234567"[digits[i]]
    ensures Value(digits, 32) == Value(bytes, 256) * 4
  {
    digits := Quintets(bytes);
    QuintetsValue(bytes);
    forall i | 0 <= i < 26
      ensures Encode(bytes)[i] == ALPHABET[digits[i]]
    {
      LetterByAlphabet(digits[i]);
    }
  }

  /** Fill a fresh buffer from the random source. */
  method RandomBytes(n: nat, source: nat -> Byte) returns (b: array<Byte>)
    ensures fresh(b) && b.Length == n && forall i :: 0 <= i < n ==> b[i] == source(i)
  {
    b := new Byte[n];
    for k := 0 to n
      invariant forall i :: 0 <= i < k ==> b[i] == source(i)
    {
      b[k] := source(k);
    }
  }

  /** A new ID, or an error when the random source fails. */
  method New(source: Option<nat -> Byte>) returns (id: Option<string>)
    ensures id.Some? <==> source.Some?
    ensures id.Some? ==> id.value == Encode(seq(16, i requires 0 <= i < 16 => source.value(i)))
    ensures id.Some? ==> |id.value| == 26 && forall c :: c in id.value ==> 'a' <= c <= 'z' || '2' <= c <= '7'
  {
    if source.None? {
      return None;
    }
    var b := RandomBytes(TOKEN_BYTES, source.value);
    id := Some(Encode(b[..]));
    assert b[..] == seq(TOKEN_BYTES, i requires 0 <= i < TOKEN_BYTES => source.value(i));
    TokensAreDistinct(b[..], b[..]);
  }
}
