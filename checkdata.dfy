/**
 * The recheck button's callback payload: `build_kb` writes "check:<idx>" and
 * `check_sub` reads it back as `int(data.split(":")[1])`.  Python's `int` on a
 * string is modelled for ASCII text: surrounding white space is stripped, an
 * optional sign is accepted, and digits may be separated by single
 * underscores.
 */
module CheckData {
  import opened Wrappers

  const CheckPrefix: string := "check:"

  predicate IsDigit(c: char) {
    '0' <= c <= '9'
  }

  /** The white space `int` strips (ASCII part of Python's `str.isspace`). */
  predicate IsSpace(c: char) {
    c == ' ' || c == '\t' || c == '\n' || c == '\r' || c == '\U{B}' || c == '\U{C}'
    || c == '\U{1C}' || c == '\U{1D}' || c == '\U{1E}' || c == '\U{1F}'
  }

  function DigitChar(d: nat): (c: char)
    requires d < 10
    ensures IsDigit(c) && c as int - '0' as int == d
  {
    ('0' as int + d) as char
  }

  /** `str(n)` for a non-negative integer. */
  function Decimal(n: nat): (s: string)
    ensures |s| > 0
    ensures forall i :: 0 <= i < |s| ==> IsDigit(s[i])
  {
    if n < 10 then [DigitChar(n)] else Decimal(n / 10) + [DigitChar(n % 10)]
  }

  /** The callback data of the recheck button for group `idx`. */
  function EncodeCheck(idx: nat): string {
    CheckPrefix + Decimal(idx)
  }

  /** `s.split(":")`: the pieces between colons, always at least one. */
  function Split(s: string): (parts: seq<string>)
    ensures |parts| >= 1
  {
    if s == [] then [""]
    else
      var rest := Split(s[1..]);
      if s[0] == ':' then [""] + rest else [[s[0]] + rest[0]] + rest[1..]
  }

  function TrimStart(s: string): string {
    if |s| > 0 && IsSpace(s[0]) then TrimStart(s[1..]) else s
  }

  function TrimEnd(s: string): string {
    if |s| > 0 && IsSpace(s[|s| - 1]) then TrimEnd(s[..|s| - 1]) else s
  }

  /** Digits, possibly grouped by single underscores, neither first nor last. */
  predicate IsDigitRun(s: string) {
    && |s| > 0
    && IsDigit(s[0])
    && IsDigit(s[|s| - 1])
    && (forall i :: 0 <= i < |s| ==> IsDigit(s[i]) || s[i] == '_')
    && (forall i :: 0 <= i < |s| - 1 ==> s[i] == '_' ==> s[i + 1] != '_')
  }

  /** The value of a run of digits, underscores ignored. */
  function DigitsValue(s: string): nat {
    if s == [] then 0
    else
      var last := s[|s| - 1];
      if IsDigit(last) then 10 * DigitsValue(s[..|s| - 1]) + (last as int - '0' as int)
      else DigitsValue(s[..|s| - 1])
  }

  /** Python's `int(s)`; `None` where it raises `ValueError`. */
  function ParseInt(s: string): Option<int> {
    var t := TrimEnd(TrimStart(s));
    if |t| > 0 && t[0] == '-' then
      if IsDigitRun(t[1..]) then Some(-(DigitsValue(t[1..]) as int)) else None
    else if |t| > 0 && t[0] == '+' then
      if IsDigitRun(t[1..]) then Some(DigitsValue(t[1..])) else None
    else if IsDigitRun(t) then Some(DigitsValue(t))
    else None
  }

  /**
   * `int(data.split(":")[1])`; `None` where `check_sub` catches an exception
   * (no second field, or a field `int` rejects).
   */
  function ParseCheck(data: string): Option<int> {
    var parts := Split(data);
    if |parts| < 2 then None else ParseInt(parts[1])
  }

  lemma {:induction false} SplitNoColon(s: string)
    requires ':' !in s
    ensures Split(s) == [s]
  {
    if s != [] {
      SplitNoColon(s[1..]);
      assert [s[0]] + s[1..] == s;
    }
  }

  lemma {:induction false} SplitAfterPrefix(p: string, rest: string)
    requires ':' !in p
    ensures Split(p + ":" + rest) == [p] + Split(rest)
  {
    var s := p + ":" + rest;
    if p == [] {
      assert s[1..] == rest;
    } else {
      assert s[1..] == p[1..] + ":" + rest;
      SplitAfterPrefix(p[1..], rest);
      assert [p[0]] + p[1..] == p;
    }
  }

  lemma {:induction false} DecimalValue(n: nat)
    ensures DigitsValue(Decimal(n)) == n
  {
    if n >= 10 {
      var s := Decimal(n);
      assert s[..|s| - 1] == Decimal(n / 10);
      DecimalValue(n / 10);
    }
  }

  /** `int(str(n)) == n` for every non-negative n. */
  lemma DecimalRoundTrip(n: nat)
    ensures ParseInt(Decimal(n)) == Some(n)
  {
    var s := Decimal(n);
    assert TrimStart(s) == s;
    assert TrimEnd(s) == s;
    DecimalValue(n);
  }

  /** A negative index written in decimal parses to that negative number (which `check_sub` then rejects by range). */
  lemma NegativeDecimal(n: nat)
    requires n > 0
    ensures ParseInt("-" + Decimal(n)) == Some(-(n as int))
  {
    var s := "-" + Decimal(n);
    assert TrimStart(s) == s;
    assert TrimEnd(s) == s;
    assert s[1..] == Decimal(n);
    DecimalValue(n);
  }

  /** The payload `build_kb` writes parses back to the index it was built from. */
  lemma CheckDataRoundTrip(idx: nat)
    ensures ParseCheck(EncodeCheck(idx)) == Some(idx)
  {
    var d := Decimal(idx);
    assert EncodeCheck(idx) == "check" + ":" + d;
    SplitAfterPrefix("check", d);
    SplitNoColon(d);
    DecimalRoundTrip(idx);
  }

  /** Different groups get different payloads. */
  lemma EncodeCheckInjective(i: nat, j: nat)
    requires EncodeCheck(i) == EncodeCheck(j)
    ensures i == j
  {
    CheckDataRoundTrip(i);
    CheckDataRoundTrip(j);
  }

  /** Data without a colon has no second field, so it is refused. */
  lemma NoColonIsRefused(data: string)
    requires ':' !in data
    ensures ParseCheck(data) == None
  {
    SplitNoColon(data);
  }
}
