/** The two string primitives the app relies on: Python's `str.strip()` with no
    argument and `sep.join(list)`. */
module Text {

  /** Python's `str.isspace()` for a single character: the ASCII whitespace and
      separator controls, NEL, and the Unicode space separators. */
  function IsSpace(c: char): (b: bool)
    ensures b ==> c as int <= 0x3000 && !('!' <= c <= '~')
  {
    var n := c as int;
    || 9 <= n <= 13
    || 28 <= n <= 32
    || n == 0x85 || n == 0xA0 || n == 0x1680
    || 0x2000 <= n <= 0x200A
    || n == 0x2028 || n == 0x2029 || n == 0x202F || n == 0x205F || n == 0x3000
  }

  /** True when every character of `s` is whitespace (so `s.strip()` is falsy). */
  predicate AllSpace(s: string) {
    forall i :: 0 <= i < |s| ==> IsSpace(s[i])
  }

  /** Where `s.lstrip()` starts: the number of leading whitespace characters. */
  function LeadingSpace(s: string): (n: nat)
    ensures n <= |s|
    ensures AllSpace(s[..n])
    ensures n < |s| ==> !IsSpace(s[n])
  {
    if s != [] && IsSpace(s[0]) then
      var n := 1 + LeadingSpace(s[1..]);
      assert s[..n] == [s[0]] + s[1..][..n - 1];
      n
    else
      0
  }

  /** Where `s.rstrip()` ends: the index after the last non-whitespace character. */
  function TrailingSpaceStart(s: string): (n: nat)
    ensures n <= |s|
    ensures AllSpace(s[n..])
    ensures n > 0 ==> !IsSpace(s[n - 1])
  {
    if s != [] && IsSpace(s[|s| - 1]) then
      var n := TrailingSpaceStart(s[..|s| - 1]);
      assert s[n..] == s[..|s| - 1][n..] + [s[|s| - 1]];
      n
    else
      |s|
  }

  /** `s.strip()`: neither end of the result is whitespace, and the result is
      empty exactly when `s` is whitespace only. */
  function Strip(s: string): (r: string)
    ensures |r| <= |s|
    ensures r != [] ==> !IsSpace(r[0]) && !IsSpace(r[|r| - 1])
    ensures r == [] <==> AllSpace(s)
  {
    var i := LeadingSpace(s);
    if i == |s| then
      assert s[..i] == s;
      []
    else
      var j := TrailingSpaceStart(s);
      assert i < j;
      s[i..j]
  }

  /** `Strip` only removes whitespace: it returns the slice of `s` that begins
      after the leading whitespace and ends before the trailing whitespace. */
  lemma StripKeepsCore(s: string)
    ensures var i, r := LeadingSpace(s), Strip(s);
      && i + |r| <= |s|
      && r == s[i..i + |r|]
      && AllSpace(s[..i])
      && AllSpace(s[i + |r|..])
  {
    var i, r := LeadingSpace(s), Strip(s);
    if i == |s| {
      assert r == [] && s[i + |r|..] == [];
    } else {
      var j := TrailingSpaceStart(s);
      assert r == s[i..j] && i + |r| == j;
    }
  }

  /** A string with no whitespace at either end is left as it is. */
  lemma StripTrimmedIsIdentity(s: string)
    requires s != [] ==> !IsSpace(s[0]) && !IsSpace(s[|s| - 1])
    ensures Strip(s) == s
  {
    if s != [] {
      assert LeadingSpace(s) == 0 && TrailingSpaceStart(s) == |s|;
    }
  }

  /** Stripping twice is the same as stripping once. */
  lemma StripIdempotent(s: string)
    ensures Strip(Strip(s)) == Strip(s)
  {
    StripTrimmedIsIdentity(Strip(s));
  }

  /** `sep.join(xs)`: the strings of `xs` in order, with `sep` between neighbours. */
  function Join(sep: string, xs: seq<string>): (r: string)
    ensures xs == [] ==> r == []
    ensures |xs| == 1 ==> r == xs[0]
  {
    if xs == [] then []
    else if |xs| == 1 then xs[0]
    else xs[0] + sep + Join(sep, xs[1..])
  }

  /** Joining two non-empty lists is joining each and putting one separator
      between the halves: no string is dropped, reordered or separated twice. */
  lemma {:induction false} JoinConcat(sep: string, xs: seq<string>, ys: seq<string>)
    requires xs != [] && ys != []
    ensures Join(sep, xs + ys) == Join(sep, xs) + sep + Join(sep, ys)
  {
    var zs := xs + ys;
    assert zs[0] == xs[0] && |zs| > 1;
    assert Join(sep, zs) == xs[0] + sep + Join(sep, zs[1..]);
    if |xs| == 1 {
      assert zs[1..] == ys;
    } else {
      assert zs[1..] == xs[1..] + ys;
      JoinConcat(sep, xs[1..], ys);
      assert Join(sep, xs) == xs[0] + sep + Join(sep, xs[1..]);
    }
  }

  /** Total length of a list of strings. */
  function TotalLength(xs: seq<string>): nat {
    if xs == [] then 0 else |xs[0]| + TotalLength(xs[1..])
  }

  /** The joined string holds every character of the parts plus exactly one
      separator between each pair of neighbours. */
  lemma {:induction false} JoinLength(sep: string, xs: seq<string>)
    requires xs != []
    ensures |Join(sep, xs)| == TotalLength(xs) + (|xs| - 1) * |sep|
  {
    if |xs| > 1 {
      JoinLength(sep, xs[1..]);
    }
  }
}
