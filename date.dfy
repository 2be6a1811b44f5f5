/**
 * `formatRelativeDate` of `src/lib/utils/date.ts`. Both instants are
 * milliseconds since the epoch (the clock and the parsing of a date string
 * are parameters), and the absolute rendering used past 30 days,
 * `formatDate`, is the parameter `formatted`.
 */
module RelativeDate {
  import opened Text

  const MINUTE: int := 60
  const HOUR: int := 3600
  const DAY: int := 86400

  /**
   * `Math.floor((now - d.getTime()) / 1000)`: floor division, which is what
   * Dafny's `/` is for a positive divisor.
   */
  function DiffSeconds(nowMs: int, dateMs: int): int {
    (nowMs - dateMs) / 1000
  }

  function FormatRelativeDate(nowMs: int, dateMs: int, formatted: string): string {
    var diffSeconds := DiffSeconds(nowMs, dateMs);
    if diffSeconds < MINUTE then "just now"
    else if diffSeconds < HOUR then
      Ago(diffSeconds / MINUTE, "minute", "minutes")
    else if diffSeconds < DAY then
      Ago(diffSeconds / HOUR, "hour", "hours")
    else if diffSeconds < DAY * 30 then
      Ago(diffSeconds / DAY, "day", "days")
    else formatted
  }

  /** `${n} units ago`, or the singular unit when `n` is exactly one. */
  function Ago(n: nat, one: string, many: string): string {
    if n == 1 then "1 " + one + " ago" else NatToString(n) + " " + many + " ago"
  }

  /** Less than a minute ago, and any instant in the future, is "just now". */
  lemma JustNow(nowMs: int, dateMs: int, formatted: string)
    requires nowMs - dateMs < 60_000
    ensures FormatRelativeDate(nowMs, dateMs, formatted) == "just now"
  {
  }

  /** `n` whole minutes (1 to 59) have passed: "n minutes ago". */
  lemma MinutesAgo(nowMs: int, dateMs: int, formatted: string, n: nat)
    requires 1 <= n < 60
    requires n * 60_000 <= nowMs - dateMs < (n + 1) * 60_000
    ensures FormatRelativeDate(nowMs, dateMs, formatted) == Ago(n, "minute", "minutes")
  {
    var d := DiffSeconds(nowMs, dateMs);
    FloorSeconds(nowMs - dateMs, n * 60, (n + 1) * 60);
    assert 60 <= d < 3600;
    DivUnique(d, 60, n);
  }

  /** `n` whole hours (1 to 23) have passed: "n hours ago". */
  lemma HoursAgo(nowMs: int, dateMs: int, formatted: string, n: nat)
    requires 1 <= n < 24
    requires n * 3_600_000 <= nowMs - dateMs < (n + 1) * 3_600_000
    ensures FormatRelativeDate(nowMs, dateMs, formatted) == Ago(n, "hour", "hours")
  {
    var d := DiffSeconds(nowMs, dateMs);
    FloorSeconds(nowMs - dateMs, n * 3600, (n + 1) * 3600);
    assert 3600 <= d < 86400;
    DivUnique(d, 3600, n);
  }

  /** `n` whole days (1 to 29) have passed: "n days ago". */
  lemma DaysAgo(nowMs: int, dateMs: int, formatted: string, n: nat)
    requires 1 <= n < 30
    requires n * 86_400_000 <= nowMs - dateMs < (n + 1) * 86_400_000
    ensures FormatRelativeDate(nowMs, dateMs, formatted) == Ago(n, "day", "days")
  {
    var d := DiffSeconds(nowMs, dateMs);
    FloorSeconds(nowMs - dateMs, n * 86400, (n + 1) * 86400);
    assert 86400 <= d < 2592000;
    DivUnique(d, 86400, n);
  }

  /** Thirty days or more: the absolute date. */
  lemma OlderIsAbsolute(nowMs: int, dateMs: int, formatted: string)
    requires nowMs - dateMs >= 30 * 86_400_000
    ensures FormatRelativeDate(nowMs, dateMs, formatted) == formatted
  {
  }

  /** Flooring milliseconds to seconds keeps whole-second bounds. */
  lemma FloorSeconds(ms: int, lo: int, hi: int)
    requires lo * 1000 <= ms < hi * 1000
    ensures lo <= ms / 1000 < hi
  {
  }

  /** The quotient is the one multiple of `unit` below `s` and the next above it. */
  lemma DivUnique(s: int, unit: int, n: int)
    requires unit > 0 && unit * n <= s < unit * n + unit
    ensures s / unit == n
  {
    var q := s / unit;
    assert unit * q <= s < unit * q + unit;
    if q > n {
      MulMono(unit, n + 1, q);
    } else if q < n {
      MulMono(unit, q + 1, n);
    }
  }

  lemma MulMono(a: int, b: int, c: int)
    requires a > 0 && b <= c
    ensures a * b <= a * c
  {
  }

  /** The singular form is used for exactly one unit. */
  lemma SingularIff(n: nat, one: string, many: string)
    requires |many| == |one| + 1
    ensures Ago(n, one, many) == "1 " + one + " ago" <==> n == 1
  {
    if n != 1 {
      assert |Ago(n, one, many)| > |"1 " + one + " ago"|;
    }
  }
}
