/** The JavaScript string operations the presign flow relies on, over `seq<char>`. */
module Strings {
  import opened Wrappers

  /** JavaScript truthiness of a possibly-undefined string: defined and non-empty. */
  predicate Truthy(s: Option<string>) {
    s.Some? && s.value != ""
  }

  /** `s.startsWith(prefix)`. */
  predicate StartsWith(s: string, prefix: string) {
    |prefix| <= |s| && s[..|prefix|] == prefix
  }

  /** `s.endsWith(suffix)`. */
  predicate EndsWith(s: string, suffix: string) {
    |suffix| <= |s| && s[|s| - |suffix|..] == suffix
  }

  predicate IsDigit(c: char) {
    '0' <= c <= '9'
  }

  predicate AllDigits(s: string) {
    forall i :: 0 <= i < |s| ==> IsDigit(s[i])
  }

  function DigitChar(d: nat): (c: char)
    requires d < 10
    ensures IsDigit(c) && c as int - '0' as int == d
  {
    ('0' as int + d) as char
  }

  /**
   * The decimal text of a whole number, as a template literal prints it:
   * at least one digit, digits only, no leading zero.
   */
  function Decimal(n: nat): (s: string)
    ensures |s| >= 1 && AllDigits(s)
    ensures s[0] == '0' <==> n == 0
  {
    if n < 10 then [DigitChar(n)] else Decimal(n / 10) + [DigitChar(n % 10)]
  }

  /** Reads a string of digits back as a whole number (the inverse of `Decimal`). */
  function DecimalValue(s: string): nat
    requires AllDigits(s)
  {
    if s == [] then 0
    else DecimalValue(s[..|s| - 1]) * 10 + (s[|s| - 1] as int - '0' as int)
  }

  lemma {:induction false} DecimalRoundTrip(n: nat)
    ensures DecimalValue(Decimal(n)) == n
  {
    if n >= 10 {
      var s := Decimal(n);
      assert s[..|s| - 1] == Decimal(n / 10);
      DecimalRoundTrip(n / 10);
    }
  }

  /** Distinct numbers print as distinct strings. */
  lemma DecimalInjective(a: nat, b: nat)
    ensures Decimal(a) == Decimal(b) <==> a == b
  {
    if Decimal(a) == Decimal(b) {
      DecimalRoundTrip(a);
      DecimalRoundTrip(b);
    }
  }

  /** A list built from `a` and `b` holds nothing else. */
  lemma OnlyListedMembers<T>(a: T, b: T, s: seq<T>)
    requires s == [] || s == [a] || s == [b] || s == [a, b]
    ensures forall m :: m in s ==> m == a || m == b
  {
  }

  /** `xs.join(sep)`. */
  function Join(xs: seq<string>, sep: string): string {
    if |xs| == 0 then ""
    else if |xs| == 1 then xs[0]
    else xs[0] + sep + Join(xs[1..], sep)
  }

  /** `t` occurs in `s` starting at offset `k`. */
  predicate OccursAt(s: string, t: string, k: nat) {
    k + |t| <= |s| && s[k..k + |t|] == t
  }

  /** An occurrence survives putting text in front. */
  lemma OccursAfterPrefix(p: string, s: string, t: string, k: nat)
    requires OccursAt(s, t, k)
    ensures OccursAt(p + s, t, |p| + k)
  {
  }

  /** Every element of a joined list occurs in the joined text; `k` is where. */
  lemma {:induction false} JoinMentions(xs: seq<string>, sep: string, i: nat) returns (k: nat)
    requires i < |xs|
    ensures OccursAt(Join(xs, sep), xs[i], k)
  {
    if i == 0 {
      k := 0;
      assert Join(xs, sep)[..|xs[0]|] == xs[0];
    } else {
      var rest := JoinMentions(xs[1..], sep, i - 1);
      var j := Join(xs, sep);
      var offset := |xs[0]| + |sep|;
      assert j == xs[0] + sep + Join(xs[1..], sep);
      assert j[offset..] == Join(xs[1..], sep);
      k := offset + rest;
      assert j[k..k + |xs[i]|] == j[offset..][rest..rest + |xs[i]|];
    }
  }

  /**
   * The index of the first '/' in `s`, if any: the reference definition of
   * a key's leading path segment, not an operation the source performs.
   */
  function SlashIndex(s: string): (r: Option<nat>)
    ensures r.Some? ==> r.value < |s| && s[r.value] == '/' && '/' !in s[..r.value]
    ensures r.None? ==> '/' !in s
  {
    if s == [] then None
    else if s[0] == '/' then Some(0)
    else
      match SlashIndex(s[1..])
      case None => None
      case Some(i) =>
        assert s[..i + 1] == [s[0]] + s[1..][..i];
        Some(i + 1)
  }
}
