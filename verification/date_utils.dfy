/**
 * The date helpers of `src/utils/dateUtils.js`, over instants in
 * milliseconds: the guards of `formatDate`, the bucketing of
 * `formatRelativeTime` by repeated floor division, and `isDatePast`.
 * Parsing a date string and locale formatting are not modelled: an argument
 * is already classified as missing, unparsable, or an instant.
 */
module DateUtils {
  import opened Js

  /** A date argument: falsy, not a valid date, or a valid instant (milliseconds since the epoch). */
  datatype DateArg = Missing | Unparsable | At(ms: int)

  /** `formatDate`: the two guards, then an instant to be formatted by the locale. */
  datatype DateText = NotAvailable | InvalidDate | Formatted(ms: int)

  function FormatDate(arg: DateArg): (t: DateText)
    ensures arg.Missing? <==> t == NotAvailable
    ensures arg.Unparsable? <==> t == InvalidDate
    ensures arg.At? ==> t == Formatted(arg.ms)
  {
    match arg
    case Missing => NotAvailable
    case Unparsable => InvalidDate
    case At(ms) => Formatted(ms)
  }

  // ---------------------------------------------------------------------------
  // Floor division facts (Dafny's `/` is the floor for a positive divisor)

  lemma DivUnique(a: int, d: int, q: int, r: int)
    requires d > 0 && a == q * d + r && 0 <= r < d
    ensures a / d == q
  {
    var q' := a / d;
    var r' := a % d;
    assert (q - q') * d == r' - r;
    MultipleBounds(q - q', d);
  }

  /** A non-zero multiple of `d` is at least `d` away from zero. */
  lemma MultipleBounds(k: int, d: int)
    requires d > 0
    ensures k >= 1 ==> k * d >= d
    ensures k <= -1 ==> k * d <= -d
  {
  }

  /** `Math.floor(Math.floor(a / b) / c) == Math.floor(a / (b * c))` */
  lemma NestedFloor(a: int, b: int, c: int)
    requires b > 0 && c > 0
    ensures (a / b) / c == a / (b * c)
  {
    var q, r := a / b, a % b;
    var q2, r2 := q / c, q % c;
    assert a == q2 * (b * c) + (r2 * b + r) by {
      assert a == q * b + r;
      assert q == q2 * c + r2;
    }
    assert r2 * b + r <= (c - 1) * b + r;
    DivUnique(a, b * c, q2, r2 * b + r);
  }

  /** A floor quotient is below `c` exactly when the dividend is below `b * c`. */
  lemma FloorBelow(a: int, b: int, c: int)
    requires b > 0
    ensures a / b < c <==> a < b * c
  {
    var q, r := a / b, a % b;
    assert a == q * b + r;
    if q < c {
      assert q * b <= (c - 1) * b;
    } else {
      assert q * b >= c * b;
    }
  }

  // ---------------------------------------------------------------------------
  // formatRelativeTime

  datatype Unit = Seconds | Minutes | Hours | Days | Months | Years

  /** The seconds in one of each unit (a month counts 30 days, a year 12 such months). */
  function UnitSeconds(u: Unit): nat
  {
    match u
    case Seconds => 1
    case Minutes => 60
    case Hours => 3600
    case Days => 86400
    case Months => 2592000
    case Years => 31104000
  }

  /**
   * The if-chain of `formatRelativeTime` on elapsed seconds: minutes under an
   * hour, hours under a day, days under 30 days, months under 12 months,
   * then years; each count is the elapsed seconds floor-divided by the
   * unit, and every unit past seconds counts at least one.
   */
  function RelativeBucket(secs: int): (r: (int, Unit))
    ensures r.1 == Seconds <==> secs < 60
    ensures r.1 == Minutes <==> 60 <= secs < 3600
    ensures r.1 == Hours <==> 3600 <= secs < 86400
    ensures r.1 == Days <==> 86400 <= secs < 2592000
    ensures r.1 == Months <==> 2592000 <= secs < 31104000
    ensures r.0 == secs / UnitSeconds(r.1)
    ensures r.1 != Seconds ==> r.0 >= 1
  {
    FloorBelow(secs, 60, 60);
    NestedFloor(secs, 60, 60);
    FloorBelow(secs, 3600, 24);
    NestedFloor(secs, 3600, 24);
    FloorBelow(secs, 86400, 30);
    NestedFloor(secs, 86400, 30);
    FloorBelow(secs, 2592000, 12);
    NestedFloor(secs, 2592000, 12);
    FloorBelow(secs, 31104000, 1);
    if secs < 60 then (secs, Seconds)
    else
      var minutes := secs / 60;
      if minutes < 60 then (minutes, Minutes)
      else
        var hours := minutes / 60;
        if hours < 24 then (hours, Hours)
        else
          var days := hours / 24;
          if days < 30 then (days, Days)
          else
            var months := days / 30;
            if months < 12 then (months, Months)
            else (months / 12, Years)
  }

  /** The unit's word: "seconds" always; the others singular exactly for a count of one. */
  function UnitWord(count: int, u: Unit): (w: string)
    ensures |w| > 0 && (u != Seconds ==> (w[|w| - 1] == 's' <==> count != 1))
    ensures u == Seconds ==> w == "seconds"
  {
    var singular := match u
      case Seconds => "second"
      case Minutes => "minute"
      case Hours => "hour"
      case Days => "day"
      case Months => "month"
      case Years => "year";
    if u != Seconds && count == 1 then singular else singular + "s"
  }

  /** The elapsed whole seconds, `Math.floor((now - date) / 1000)`. */
  function ElapsedSeconds(ms: int, nowMs: int): int
  {
    (nowMs - ms) / 1000
  }

  /** `formatRelativeTime(date)` at the instant `nowMs`. */
  function FormatRelativeTime(arg: DateArg, nowMs: int): (s: string)
    ensures arg.Missing? ==> s == "N/A"
    ensures arg.Unparsable? ==> s == "Invalid date"
    ensures arg.At? ==>
      var (count, u) := RelativeBucket(ElapsedSeconds(arg.ms, nowMs));
      s == IntToString(count) + " " + UnitWord(count, u) + " ago"
  {
    match arg
    case Missing => "N/A"
    case Unparsable => "Invalid date"
    case At(ms) =>
      var (count, u) := RelativeBucket(ElapsedSeconds(ms, nowMs));
      IntToString(count) + " " + UnitWord(count, u) + " ago"
  }

  /** Under a minute the phrase is the whole seconds, always with "seconds". */
  lemma UnderAMinuteInSeconds(ms: int, nowMs: int)
    requires nowMs - ms < 60000
    ensures FormatRelativeTime(At(ms), nowMs) == IntToString(ElapsedSeconds(ms, nowMs)) + " seconds ago"
  {
    FloorBelow(nowMs - ms, 1000, 60);
  }

  /** A date in the future reads as a non-positive number of seconds "ago". */
  lemma FutureDatesReadAsSeconds(ms: int, nowMs: int)
    requires ms >= nowMs
    ensures ElapsedSeconds(ms, nowMs) <= 0
    ensures FormatRelativeTime(At(ms), nowMs) == IntToString(ElapsedSeconds(ms, nowMs)) + " seconds ago"
  {
    UnderAMinuteInSeconds(ms, nowMs);
  }

  /** Exactly one day (to the second) reads "1 day ago". */
  lemma OneDayAgo(ms: int, nowMs: int)
    requires 86400000 <= nowMs - ms < 86401000
    ensures FormatRelativeTime(At(ms), nowMs) == "1 day ago"
  {
    var secs := ElapsedSeconds(ms, nowMs);
    FloorBelow(nowMs - ms, 1000, 86400);
    FloorBelow(nowMs - ms, 1000, 86401);
    assert secs == 86400;
    assert RelativeBucket(secs) == (1, Days);
  }

  /** `isDatePast`: false for a missing or unparsable date, otherwise `date < now`. */
  function IsDatePast(arg: DateArg, nowMs: int): (past: bool)
    ensures past <==> arg.At? && arg.ms < nowMs
  {
    match arg
    case At(ms) => ms < nowMs
    case _ => false
  }

  /** A date that is not past is shown in seconds, never in a larger unit. */
  lemma NotPastReadsAsSeconds(arg: DateArg, nowMs: int)
    requires arg.At? && !IsDatePast(arg, nowMs)
    ensures RelativeBucket(ElapsedSeconds(arg.ms, nowMs)).1 == Seconds
  {
  }
}
