/** The rounded durations templates show. Durations are whole nanoseconds; rounding is half up, exactly. */
module Durations {
  import opened Radix

  const SECOND := 1_000_000_000
  const MINUTE := 60 * SECOND
  const HOUR := 60 * MINUTE
  const DAY := 24 * HOUR
  const YEAR := 365 * DAY

  datatype Unit = Seconds | Minutes | Hours | Days | Years

  function Size(u: Unit): int {
    match u
    case Seconds => SECOND
    case Minutes => MINUTE
    case Hours => HOUR
    case Days => DAY
    case Years => YEAR
  }

  /** "less than 1 second", or a number of units. */
  datatype Shown = LessThanASecond | Count(n: int, unit: Unit)

  function Round(d: int, size: int): int
    requires size > 0
  {
    (2 * d + size) / (2 * size)
  }

  /** Seconds, minutes and hours are rounded; days and years are cut off. */
  function ApproxDuration(d: int): Shown {
    if d < SECOND then LessThanASecond
    else if Round(d, SECOND) < 60 then Count(Round(d, SECOND), Seconds)
    else if Round(d, MINUTE) < 60 then Count(Round(d, MINUTE), Minutes)
    else if Round(d, HOUR) < 24 then Count(Round(d, HOUR), Hours)
    else if d / DAY < 365 then Count(d / DAY, Days)
    else Count(d / YEAR, Years)
  }

  /** The length of time that is shown. */
  function Length(s: Shown): int {
    match s
    case LessThanASecond => 0
    case Count(n, unit) => n * Size(unit)
  }

  /** The unit depends on the length alone: it changes at 1 s, 59.5 s, 59.5 min, 23.5 h and 365 days. */
  lemma UnitByLength(d: int)
    ensures ApproxDuration(d).LessThanASecond? <==> d < 1_000_000_000
    ensures d >= 1_000_000_000 ==>
      var unit := ApproxDuration(d).unit;
      if d < 59_500_000_000 then unit == Seconds
      else if d < 3_570_000_000_000 then unit == Minutes
      else if d < 84_600_000_000_000 then unit == Hours
      else if d < 31_536_000_000_000_000 then unit == Days
      else unit == Years
  {
  }

  /** A longer duration never falls back to a smaller unit. */
  lemma UnitNeverDrops(d: int, e: int)
    requires SECOND <= d <= e
    ensures Size(ApproxDuration(d).unit) <= Size(ApproxDuration(e).unit)
  {
    UnitByLength(d);
    UnitByLength(e);
  }

  lemma RoundError(d: int, size: int)
    requires size > 0
    ensures -size <= 2 * (Round(d, size) * size - d) <= size
  {
    var q, r := (2 * d + size) / (2 * size), (2 * d + size) % (2 * size);
    assert 2 * d + size == q * (2 * size) + r;
    assert q * (2 * size) == 2 * (q * size);
  }

  /** Counts stay within their unit. */
  lemma CountsInRange(d: int)
    requires d >= SECOND
    ensures var Count(n, unit) := ApproxDuration(d);
      match unit
      case Seconds => 1 <= n <= 59
      case Minutes => 1 <= n <= 59
      case Hours => 1 <= n <= 23
      case Days => 0 <= n <= 364
      case Years => 1 <= n
  {
    UnitByLength(d);
  }

  /** What a unit lasts. */
  ghost function Nanoseconds(u: Unit): int {
    match u
    case Seconds => 1_000_000_000
    case Minutes => 60_000_000_000
    case Hours => 3_600_000_000_000
    case Days => 86_400_000_000_000
    case Years => 31_536_000_000_000_000
  }

  /** Rounded units are off by at most half a unit, cut-off ones by less than one. */
  lemma ErrorBound(d: int)
    requires d >= SECOND
    ensures var Count(n, unit) := ApproxDuration(d);
      && Size(unit) == Nanoseconds(unit)
      && if unit.Days? || unit.Years? then 0 <= d - n * Size(unit) < Size(unit)
      else -Size(unit) <= 2 * (n * Size(unit) - d) <= Size(unit)
  {
    RoundError(d, SECOND);
    RoundError(d, MINUTE);
    RoundError(d, HOUR);
  }

  lemma DivGrows(a: int, b: int, size: int)
    requires size > 0 && a <= b
    ensures a / size <= b / size
  {
    var q, r := a / size, b / size;
    assert a == q * size + a % size && b == r * size + b % size;
    assert (q - r - 1) * size == q * size - r * size - size < 0;
    NegativeFactor(q - r - 1, size);
  }

  lemma RoundGrows(d: int, e: int, size: int)
    requires size > 0 && d <= e
    ensures Round(d, size) <= Round(e, size)
  {
    DivGrows(2 * d + size, 2 * e + size, 2 * size);
  }

  lemma SameUnitGrows(d: int, e: int)
    requires SECOND <= d <= e && ApproxDuration(d).unit == ApproxDuration(e).unit
    ensures ApproxDuration(d).n <= ApproxDuration(e).n
  {
    match ApproxDuration(d).unit
    case Seconds => RoundGrows(d, e, SECOND);
    case Minutes => RoundGrows(d, e, MINUTE);
    case Hours => RoundGrows(d, e, HOUR);
    case Days => DivGrows(d, e, DAY);
    case Years => DivGrows(d, e, YEAR);
  }

  /** The last half hour of a day, which is shown as "0 days". */
  predicate ZeroDays(d: int) {
    84_600_000_000_000 <= d < 86_400_000_000_000
  }

  lemma ZeroDaysIff(d: int)
    requires d >= SECOND
    ensures ApproxDuration(d) == Count(0, Days) <==> ZeroDays(d)
  {
    UnitByLength(d);
  }

  lemma LengthOrder(s: Shown, t: Shown)
    requires s.Count? && t.Count? && Size(s.unit) <= Size(t.unit) && 0 <= s.n
    requires s.unit == t.unit ==> s.n <= t.n
    requires match s.unit case Seconds => 1 <= s.n <= 59 case Minutes => 1 <= s.n <= 59 case Hours => 1 <= s.n <= 23
                          case Days => s.n <= 364 case Years => true
    requires t.n >= 1 || (t.n == 0 && t.unit.Days?)
    ensures Length(s) <= Length(t) <==> !(t == Count(0, Days) && s.unit != Days)
  {
  }

  /** What is shown grows with the duration, except from below that half hour into it. */
  lemma ShownGrowsIff(d: int, e: int)
    requires SECOND <= d <= e
    ensures Length(ApproxDuration(d)) <= Length(ApproxDuration(e)) <==> !(ZeroDays(e) && d < 84_600_000_000_000)
  {
    UnitNeverDrops(d, e);
    CountsInRange(d);
    CountsInRange(e);
    if ApproxDuration(d).unit == ApproxDuration(e).unit { SameUnitGrows(d, e); }
    ZeroDaysIff(e);
    UnitByLength(d);
    LengthOrder(ApproxDuration(d), ApproxDuration(e));
  }
}
