/** Text primitives with JavaScript's meaning: the whitespace class shared by
    `String.prototype.trim` and the regular-expression class `\s`, trimming,
    the "blank" test `!s.trim()`, and the numeric value of a form input. */
module Text {
  import opened Wrappers

  /** A character of JavaScript's WhiteSpace or LineTerminator classes. */
  predicate IsWhitespace(c: char) {
    var n := c as int;
    n == 0x09 || n == 0x0A || n == 0x0B || n == 0x0C || n == 0x0D || n == 0x20
    || n == 0xA0 || n == 0x1680 || (0x2000 <= n <= 0x200A) || n == 0x2028
    || n == 0x2029 || n == 0x202F || n == 0x205F || n == 0x3000 || n == 0xFEFF
  }

  predicate AllWhitespace(s: string) {
    forall i :: 0 <= i < |s| ==> IsWhitespace(s[i])
  }

  predicate NoWhitespace(s: string) {
    forall i :: 0 <= i < |s| ==> !IsWhitespace(s[i])
  }

  /** `s` without its leading whitespace: a suffix of `s`. */
  function TrimStart(s: string): (r: string)
    ensures |r| <= |s| && r == s[|s| - |r|..]
    ensures AllWhitespace(s[..|s| - |r|])
    ensures r == [] || !IsWhitespace(r[0])
  {
    if s != [] && IsWhitespace(s[0]) then
      var r := TrimStart(s[1..]);
      var k := |s| - |r|;
      assert s[..k] == [s[0]] + s[1..][..k - 1];
      WhitespaceCons(s[0], s[1..][..k - 1]);
      r
    else s
  }

  lemma WhitespaceCons(c: char, t: string)
    requires IsWhitespace(c) && AllWhitespace(t)
    ensures AllWhitespace([c] + t)
  {
  }

  lemma WhitespaceSnoc(t: string, c: char)
    requires AllWhitespace(t) && IsWhitespace(c)
    ensures AllWhitespace(t + [c])
  {
  }

  /** `s` without its trailing whitespace: a prefix of `s`. */
  function TrimEnd(s: string): (r: string)
    ensures |r| <= |s| && r == s[..|r|]
    ensures AllWhitespace(s[|r|..])
    ensures r == [] || !IsWhitespace(r[|r| - 1])
  {
    if s != [] && IsWhitespace(s[|s| - 1]) then
      var r := TrimEnd(s[..|s| - 1]);
      assert s[..|s| - 1][|r|..] + [s[|s| - 1]] == s[|r|..];
      WhitespaceSnoc(s[..|s| - 1][|r|..], s[|s| - 1]);
      r
    else s
  }

  /** JavaScript's `s.trim()`: whitespace removed from both ends, nothing else. */
  function Trim(s: string): (r: string)
    ensures |r| <= |s|
    ensures r == [] || (!IsWhitespace(r[0]) && !IsWhitespace(r[|r| - 1]))
    ensures r == [] <==> AllWhitespace(s)
    ensures exists i, j :: 0 <= i <= j <= |s| && r == s[i..j]
                           && AllWhitespace(s[..i]) && AllWhitespace(s[j..])
  {
    var t := TrimStart(s);
    var r := TrimEnd(t);
    TrimmedSlice(s, t, r);
    TrimmedEmpty(s, t, r);
    r
  }

  /** `t` is `s` without some leading whitespace and `r` is `t` without some
      trailing whitespace: the shape `TrimStart` and `TrimEnd` promise. */
  predicate TrimmedFrom(s: string, t: string, r: string) {
    |t| <= |s| && t == s[|s| - |t|..] && AllWhitespace(s[..|s| - |t|])
    && |r| <= |t| && r == t[..|r|] && AllWhitespace(t[|r|..])
  }

  /** What is left after trimming both ends is a slice of `s` with only
      whitespace around it. */
  lemma TrimmedSlice(s: string, t: string, r: string)
    requires TrimmedFrom(s, t, r)
    ensures 0 <= |s| - |t| <= |s| - |t| + |r| <= |s|
    ensures r == s[|s| - |t|..|s| - |t| + |r|]
    ensures AllWhitespace(s[..|s| - |t|]) && AllWhitespace(s[|s| - |t| + |r|..])
  {
    var i := |s| - |t|;
    assert s[i + |r|..] == t[|r|..];
  }

  /** Trimming leaves nothing exactly when the text is all whitespace. */
  lemma TrimmedEmpty(s: string, t: string, r: string)
    requires TrimmedFrom(s, t, r)
    requires t == [] || !IsWhitespace(t[0])
    ensures r == [] <==> AllWhitespace(s)
  {
    if r == [] {
      assert s == s[..|s| - |t|] + t;
    } else {
      assert r[0] == t[0] && t[0] == s[|s| - |t|];
    }
  }

  /** The test `!s.trim()`: the text is empty or only whitespace. */
  predicate IsBlank(s: string) {
    Trim(s) == []
  }

  /** `Number(v)` for the value of an `<input type="number">`: the empty
      input (`None`) reads as 0. */
  function NumberValue(v: Option<int>): (n: int)
    ensures v.Some? ==> n == v.value
    ensures v.None? ==> n == 0
  {
    v.GetOr(0)
  }
}
