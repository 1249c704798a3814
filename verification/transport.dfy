/** The HTTP transport as the registry layer sees it: a function from a URL
    and request headers to an outcome, which is either a response or a
    thrown error. Also the `"<status> <statusText>"` line handed to a
    provider's error formatter, with its decimal rendering of the status. */
module Transport {
  import opened Results

  /** Request headers, in the order they were appended. */
  type Headers = seq<(string, string)>

  /** What one GET produces. `body` is what reading the body as text gives:
      its text, or the error reading it threw. */
  datatype Outcome =
    | Response(ok: bool, status: nat, statusText: string, body: Result<string, string>)
    | Thrown(err: string)

  /** A fetch implementation: the caller's override or the ambient one. */
  type Fetch = (string, Headers) -> Outcome

  // ---------------------------------------------------------------------
  // Decimal rendering of a status code, as a template literal renders a
  // non-negative integer.

  predicate IsDigit(c: char) {
    '0' <= c <= '9'
  }

  predicate AllDigits(s: string) {
    forall i :: 0 <= i < |s| ==> IsDigit(s[i])
  }

  function DigitChar(d: nat): (c: char)
    requires d < 10
    ensures IsDigit(c) && c as int - '0' as int == d
  {
    (d + '0' as int) as char
  }

  function NatToString(n: nat): (s: string)
    ensures |s| > 0 && AllDigits(s)
    ensures |s| == 1 || s[0] != '0'
    decreases n
  {
    if n < 10 then [DigitChar(n)] else NatToString(n / 10) + [DigitChar(n % 10)]
  }

  /** The number a string of decimal digits denotes. */
  function DecimalValue(s: string): nat
    requires AllDigits(s)
    decreases |s|
  {
    if |s| == 0 then 0 else DecimalValue(s[..|s| - 1]) * 10 + (s[|s| - 1] as int - '0' as int)
  }

  lemma {:induction false} DecimalRoundTrip(n: nat)
    ensures DecimalValue(NatToString(n)) == n
    decreases n
  {
    var s := NatToString(n);
    if n < 10 {
      assert s[..|s| - 1] == [];
    } else {
      assert s[..|s| - 1] == NatToString(n / 10);
      DecimalRoundTrip(n / 10);
    }
  }

  // ---------------------------------------------------------------------
  // The status line.

  /** `${response.status} ${response.statusText}` */
  function StatusLine(status: nat, statusText: string): string {
    NatToString(status) + " " + statusText
  }

  /** The length of the run of digits `s` starts with. */
  function LeadingDigits(s: string): (n: nat)
    ensures n <= |s|
    ensures AllDigits(s[..n])
    decreases |s|
  {
    if |s| == 0 || !IsDigit(s[0]) then
      0
    else
      var n := 1 + LeadingDigits(s[1..]);
      assert s[..n] == [s[0]] + s[1..][..n - 1];
      n
  }

  /** The status and status text a status line was made from: the leading
      digits, then everything after the space that follows them. */
  function ParseStatusLine(line: string): (r: Option<(nat, string)>)
  {
    var n := LeadingDigits(line);
    if 0 < n < |line| && line[n] == ' ' then Some((DecimalValue(line[..n]), line[n + 1..])) else None
  }

  lemma {:induction false} LeadingDigitsOf(d: string, rest: string)
    requires AllDigits(d)
    requires |rest| > 0 && !IsDigit(rest[0])
    ensures LeadingDigits(d + rest) == |d|
    decreases |d|
  {
    if |d| > 0 {
      assert (d + rest)[1..] == d[1..] + rest;
      LeadingDigitsOf(d[1..], rest);
    }
  }

  /** The status line carries its status and status text intact. */
  lemma StatusLineRoundTrip(status: nat, statusText: string)
    ensures ParseStatusLine(StatusLine(status, statusText)) == Some((status, statusText))
  {
    var d := NatToString(status);
    var line := StatusLine(status, statusText);
    assert line == d + (" " + statusText);
    LeadingDigitsOf(d, " " + statusText);
    assert line[..|d|] == d;
    assert line[|d| + 1..] == statusText;
    DecimalRoundTrip(status);
  }

  /** Different status codes or texts give different status lines. */
  lemma StatusLineInjective(s1: nat, t1: string, s2: nat, t2: string)
    requires StatusLine(s1, t1) == StatusLine(s2, t2)
    ensures s1 == s2 && t1 == t2
  {
    StatusLineRoundTrip(s1, t1);
    StatusLineRoundTrip(s2, t2);
  }
}
