/** Text operations of the worker: C strings, decimal numbers, and splitting at a separator. */
module Strings {

  /** What `c_str()` keeps of a string: everything before the first NUL. */
  function CStr(s: string): (r: string)
    ensures r <= s && '\0' !in r
    ensures r == s <==> '\0' !in s
  {
    if s == [] || s[0] == '\0' then [] else [s[0]] + CStr(s[1..])
  }

  lemma {:induction false} CStrOfPrefix(a: string, b: string)
    requires '\0' !in a
    ensures CStr(a + b) == a + CStr(b)
  {
    if a == [] {
      assert a + b == b;
    } else {
      assert (a + b)[1..] == a[1..] + b;
      CStrOfPrefix(a[1..], b);
    }
  }

  function Digit(d: nat): char
    requires d < 10
  {
    '0' + d as char
  }

  /** `std::format("{}", n)` for a non-negative n. */
  function Decimal(n: nat): (r: string)
    ensures r != [] && forall i :: 0 <= i < |r| ==> '0' <= r[i] <= '9'
  {
    if n < 10 then [Digit(n)] else Decimal(n / 10) + [Digit(n % 10)]
  }

  function DecimalValue(s: string): int {
    if s == [] then 0 else 10 * DecimalValue(s[..|s| - 1]) + (s[|s| - 1] as int - '0' as int)
  }

  /** A formatted count reads back as itself and has no leading zero. */
  lemma {:induction false} DecimalRoundTrip(n: nat)
    ensures DecimalValue(Decimal(n)) == n
    ensures Decimal(n)[0] == '0' ==> n == 0 && Decimal(n) == "0"
  {
    if n >= 10 {
      var r := Decimal(n);
      assert r[..|r| - 1] == Decimal(n / 10);
      DecimalRoundTrip(n / 10);
    } else {
      assert Decimal(n)[..0] == [];
    }
  }

  /** Splitting at the last separator is unambiguous. */
  lemma SplitAtLast(a: string, x: string, b: string, y: string, c: char)
    requires c !in x && c !in y
    requires a + [c] + x == b + [c] + y
    ensures a == b && x == y
  {
    var s := a + [c] + x;
    assert s[|a|] == c && s[|b|] == c;
    assert |a| == |b|;
    assert a == s[..|a|] && x == s[|a| + 1..];
  }

  /** Splitting at the first separator is unambiguous. */
  lemma SplitAtFirst(a: string, x: string, b: string, y: string, c: char)
    requires c !in a && c !in b
    requires a + [c] + x == b + [c] + y
    ensures a == b && x == y
  {
    var s := a + [c] + x;
    assert s[|a|] == c && s[|b|] == c;
    assert |a| == |b|;
    assert a == s[..|a|] && x == s[|a| + 1..];
  }

  function FormatInt(n: int): string {
    if n < 0 then "-" + Decimal(-n) else Decimal(n)
  }

  /** The deduplication ID of a retry, `{job}-retry-{n}`. */
  function RetryId(job: string, n: int): string {
    job + "-retry" + ['-'] + FormatInt(n)
  }

  /** How counts and retry IDs read. */
  lemma RetryIdText(job: string, n: int)
    ensures RetryId(job, n) == job + "-retry-" + FormatInt(n)
    ensures FormatInt(n) == if n < 0 then "-" + Decimal(-n) else Decimal(n)
  {}

  /** Equal retry IDs come from the same job and the same count, whatever the job IDs contain. */
  lemma RetryIdInjective(j1: string, n1: nat, j2: string, n2: nat)
    requires RetryId(j1, n1) == RetryId(j2, n2)
    ensures j1 == j2 && n1 == n2
  {
    SplitAtLast(j1 + "-retry", Decimal(n1), j2 + "-retry", Decimal(n2), '-');
    DecimalRoundTrip(n1);
    DecimalRoundTrip(n2);
    assert |j1| == |j2|;
    assert j1 == (j1 + "-retry")[..|j1|] && j2 == (j2 + "-retry")[..|j2|];
  }
}
