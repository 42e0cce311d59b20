/**
 * The health line served on /_stats: the three uint64 counters and the derived
 * "Working" value, rendered in decimal, and a reader that recovers them from
 * the line.
 */
module Stats {
  import opened Wrappers

  /** 2^64: Go's uint64 counters and their subtraction wrap around modulo this. */
  const U64Limit: nat := 0x1_0000_0000_0000_0000

  type U64 = x: int | 0 <= x < U64Limit

  /** A reading of the three counters. */
  datatype Snapshot = Snapshot(received: U64, done: U64, failed: U64)

  /** What a poller reads back from a stats line. */
  datatype Report = Report(received: nat, done: nat, failed: nat, working: nat)

  /**
   * received - done - failed in uint64 arithmetic. Adding back done and failed
   * gives received modulo 2^64; when done + failed <= received nothing wraps and
   * the value is the plain difference.
   */
  function Working(s: Snapshot): (w: U64)
    ensures (w + s.done + s.failed) % U64Limit == s.received
    ensures s.done + s.failed <= s.received ==> w == s.received - s.done - s.failed
  {
    (s.received - s.done - s.failed) % U64Limit
  }

  /** Adding a multiple of 2^64 does not change a value modulo 2^64. */
  lemma ModShift(x: int, k: int)
    ensures (x + U64Limit * k) % U64Limit == x % U64Limit
  {
    var M := U64Limit;
    assert x == M * (x / M) + x % M;
    assert x + M * k == M * (x / M + k) + x % M;
  }

  /**
   * When every accepted job is done, failed or pending, the Working value of
   * the wrapped counters is the wrapped number of pending jobs; below 2^64
   * nothing wraps.
   */
  lemma WorkingOfCounts(r: nat, d: nat, f: nat, pending: nat)
    requires r == d + f + pending
    ensures Working(Snapshot(r % U64Limit, d % U64Limit, f % U64Limit)) == pending % U64Limit
    ensures r < U64Limit ==> Snapshot(r % U64Limit, d % U64Limit, f % U64Limit) == Snapshot(r, d, f)
    ensures r < U64Limit ==> pending % U64Limit == r - d - f
  {
    var M := U64Limit;
    var k := d / M + f / M - r / M;
    assert r == M * (r / M) + r % M && d == M * (d / M) + d % M && f == M * (f / M) + f % M;
    assert r % M - d % M - f % M == pending + M * k;
    ModShift(pending, k);
  }

  predicate IsDigit(c: char)
  {
    '0' <= c <= '9'
  }

  predicate AllDigits(s: string)
  {
    forall i :: 0 <= i < |s| ==> IsDigit(s[i])
  }

  /** A decimal numeral as fmt's %d writes it: at least one digit, no leading zero unless it is "0". */
  predicate Canonical(s: string)
  {
    s != [] && AllDigits(s) && (s[0] == '0' ==> s == "0")
  }

  function DigitChar(d: nat): (c: char)
    requires d < 10
    ensures IsDigit(c) && c as int - '0' as int == d
  {
    ('0' as int + d) as char
  }

  function DigitValue(c: char): (d: nat)
    requires IsDigit(c)
    ensures d < 10 && DigitChar(d) == c
  {
    c as int - '0' as int
  }

  /** fmt's %d rendering of a natural number. */
  function Decimal(n: nat): (s: string)
    ensures Canonical(s)
    ensures n > 0 ==> s[0] != '0'
  {
    if n < 10 then [DigitChar(n)] else Decimal(n / 10) + [DigitChar(n % 10)]
  }

  /** The value of a string of decimal digits. */
  function ParseDecimal(s: string): nat
    requires AllDigits(s)
  {
    if s == [] then 0 else 10 * ParseDecimal(s[..|s| - 1]) + DigitValue(s[|s| - 1])
  }

  lemma {:induction false} DecimalRoundTrip(n: nat)
    ensures ParseDecimal(Decimal(n)) == n
  {
    if n >= 10 {
      var s := Decimal(n);
      assert s[..|s| - 1] == Decimal(n / 10);
      DecimalRoundTrip(n / 10);
    }
  }

  lemma {:induction false} ParsePositive(s: string)
    requires AllDigits(s) && s != [] && s[0] != '0'
    ensures ParseDecimal(s) > 0
  {
    if |s| > 1 {
      ParsePositive(s[..|s| - 1]);
    }
  }

  lemma {:induction false} ParseDecimalRoundTrip(s: string)
    requires Canonical(s)
    ensures Decimal(ParseDecimal(s)) == s
  {
    if |s| > 1 {
      var t := s[..|s| - 1];
      assert t[0] == s[0] != '0';
      ParsePositive(t);
      ParseDecimalRoundTrip(t);
      var n := ParseDecimal(s);
      assert n / 10 == ParseDecimal(t) && n % 10 == DigitValue(s[|s| - 1]);
      assert s == t + [s[|s| - 1]];
    }
  }

  /** Length of the longest run of digits at the front of `s`. */
  function SpanDigits(s: string): (k: nat)
    ensures k <= |s| && AllDigits(s[..k])
    ensures k < |s| ==> !IsDigit(s[k])
  {
    if s == [] || !IsDigit(s[0]) then 0 else 1 + SpanDigits(s[1..])
  }

  /** Reads `tag` and then a decimal number from the front of `s`; gives the number and what follows it. */
  function ReadField(s: string, tag: string): Option<(nat, string)>
  {
    if |tag| <= |s| && s[..|tag|] == tag then
      var t := s[|tag|..];
      var k := SpanDigits(t);
      if k == 0 then None else Some((ParseDecimal(t[..k]), t[k..]))
    else
      None
  }

  /** The digit run at the front of a numeral followed by a non-digit is the numeral. */
  lemma {:induction false} SpanDigitsOf(d: string, rest: string)
    requires AllDigits(d) && (rest == [] || !IsDigit(rest[0]))
    ensures SpanDigits(d + rest) == |d|
  {
    if d != [] {
      assert (d + rest)[1..] == d[1..] + rest;
      SpanDigitsOf(d[1..], rest);
    }
  }

  lemma ReadFieldOf(tag: string, n: nat, rest: string)
    requires rest == [] || !IsDigit(rest[0])
    ensures ReadField(tag + Decimal(n) + rest, tag) == Some((n, rest))
  {
    var d := Decimal(n);
    var s := tag + d + rest;
    assert s[..|tag|] == tag;
    assert s[|tag|..] == d + rest;
    SpanDigitsOf(d, rest);
    assert (d + rest)[..|d|] == d && (d + rest)[|d|..] == rest;
    DecimalRoundTrip(n);
  }

  /** The body of the /_stats reply for a reading of the counters. */
  function StatsLine(s: Snapshot): string
  {
    "Received : [" + Decimal(s.received)
      + ("] = Done [" + Decimal(s.done)
      + ("] + Failed [" + Decimal(s.failed)
      + ("] + Working [" + Decimal(Working(s)) + "]")))
  }

  /** Reads a stats line back into its four numbers; None when the line is not of that form. */
  function ParseStats(line: string): Option<Report>
  {
    match ReadField(line, "Received : [")
    case None => None
    case Some((r, t1)) =>
      match ReadField(t1, "] = Done [")
      case None => None
      case Some((d, t2)) =>
        match ReadField(t2, "] + Failed [")
        case None => None
        case Some((f, t3)) =>
          match ReadField(t3, "] + Working [")
          case None => None
          case Some((w, t4)) =>
            if t4 == "]" then Some(Report(r, d, f, w)) else None
  }

  /** A stats line carries exactly the counters it was made from, and the Working value. */
  lemma StatsLineRoundTrip(s: Snapshot)
    ensures ParseStats(StatsLine(s)) == Some(Report(s.received, s.done, s.failed, Working(s)))
  {
    var t4 := "]";
    var t3 := "] + Working [" + Decimal(Working(s)) + t4;
    var t2 := "] + Failed [" + Decimal(s.failed) + t3;
    var t1 := "] = Done [" + Decimal(s.done) + t2;
    ReadFieldOf("Received : [", s.received, t1);
    ReadFieldOf("] = Done [", s.done, t2);
    ReadFieldOf("] + Failed [", s.failed, t3);
    ReadFieldOf("] + Working [", Working(s), t4);
  }

  /** Two different readings never produce the same stats line. */
  lemma StatsLineInjective(a: Snapshot, b: Snapshot)
    requires StatsLine(a) == StatsLine(b)
    ensures a == b
  {
    StatsLineRoundTrip(a);
    StatsLineRoundTrip(b);
  }
}
