/**
 * Separator-joined text: Python's `sep.join(xs)` and its inverse,
 * `s.split(sep)`. Value strings and sequence bodies are both built by
 * joining comma-free fields with ','.
 */
module Fields {
  import opened Wrappers

  /** Python's `sep.join(xs)`. */
  function Join(xs: seq<string>, sep: char): (s: string)
    ensures |xs| == 1 ==> s == xs[0]
  {
    if |xs| == 0 then "" else if |xs| == 1 then xs[0] else xs[0] + [sep] + Join(xs[1..], sep)
  }

  /** A string whose character k differs from p's does not start with p. */
  lemma NotPrefix(p: string, s: string, k: nat)
    requires k < |p| && k < |s| && p[k] != s[k]
    ensures !(p <= s)
  {
  }

  /** Python's `s.split(sep)`: never empty, and `"".split(sep) == [""]`. */
  function Split(s: string, sep: char): (parts: seq<string>)
    ensures |parts| >= 1
  {
    if s == [] then [""]
    else
      var rest := Split(s[1..], sep);
      if s[0] == sep then [""] + rest else [[s[0]] + rest[0]] + rest[1..]
  }

  /** A string without the separator is a single field. */
  lemma {:induction false} SplitNone(s: string, sep: char)
    requires sep !in s
    ensures Split(s, sep) == [s]
  {
    if s != [] {
      SplitNone(s[1..], sep);
      assert [s[0]] + s[1..] == s;
    }
  }

  /** Splitting at a separator splits the two sides independently. */
  lemma {:induction false} SplitAppend(a: string, b: string, sep: char)
    ensures Split(a + [sep] + b, sep) == Split(a, sep) + Split(b, sep)
  {
    var s := a + [sep] + b;
    if a == [] {
      assert s[1..] == b;
    } else {
      assert s[0] == a[0] && s[1..] == a[1..] + [sep] + b;
      SplitAppend(a[1..], b, sep);
    }
  }

  /** Splitting a join of separator-free fields gives the fields back. */
  lemma {:induction false} SplitJoin(xs: seq<string>, sep: char)
    requires |xs| >= 1
    requires forall i :: 0 <= i < |xs| ==> sep !in xs[i]
    ensures Split(Join(xs, sep), sep) == xs
  {
    SplitNone(xs[0], sep);
    if |xs| > 1 {
      SplitAppend(xs[0], Join(xs[1..], sep), sep);
      SplitJoin(xs[1..], sep);
    }
  }

  /** Joining n separator-free fields puts exactly n - 1 separators in (none for n = 0). */
  lemma {:induction false} JoinSeparatorCount(xs: seq<string>, sep: char)
    requires forall i :: 0 <= i < |xs| ==> sep !in xs[i]
    ensures multiset(Join(xs, sep))[sep] == if |xs| == 0 then 0 else |xs| - 1
  {
    if |xs| == 1 {
      assert sep !in multiset(xs[0]);
    } else if |xs| > 1 {
      JoinSeparatorCount(xs[1..], sep);
      assert sep !in multiset(xs[0]);
      assert multiset(xs[0] + [sep] + Join(xs[1..], sep))
          == multiset(xs[0]) + multiset([sep]) + multiset(Join(xs[1..], sep));
    }
  }

  /** The rest of s after the prefix p, or None when s does not start with p. */
  function StripPrefix(s: string, p: string): (r: Option<string>)
    ensures r.Some? ==> p + r.value == s
  {
    if p == [] then Some(s)
    else if s == [] || s[0] != p[0] then None
    else StripPrefix(s[1..], p[1..])
  }

  lemma {:induction false} StripPrefixAppend(p: string, r: string)
    ensures StripPrefix(p + r, p) == Some(r)
  {
    if p != [] {
      assert (p + r)[0] == p[0] && (p + r)[1..] == p[1..] + r;
      StripPrefixAppend(p[1..], r);
    } else {
      assert p + r == r;
    }
  }
}
