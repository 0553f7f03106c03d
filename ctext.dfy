/** Character classes of the C library in the "C" locale, and the scans over a
    string that the formatted-input functions build on. A `char` stands for one
    byte of a C string. */
module CText {

  /** `isspace` in the "C" locale: space, \t, \n, \v, \f, \r. */
  predicate IsSpace(c: char) {
    c == ' ' || c == '\t' || c == '\n' || c == '\U{B}' || c == '\U{C}' || c == '\r'
  }

  /** `isdigit`. */
  predicate IsDigit(c: char) {
    '0' <= c <= '9'
  }

  /** Every character of `s` is white space. */
  predicate AllSpace(s: string) {
    forall k :: 0 <= k < |s| ==> IsSpace(s[k])
  }

  /** A `%s` token: non-empty and free of white space. */
  predicate Word(s: string) {
    |s| > 0 && forall k :: 0 <= k < |s| ==> !IsSpace(s[k])
  }

  /** What is left of `s` after skipping its leading white space. */
  function SkipSpace(s: string): (r: string)
    ensures |r| <= |s| && r == s[|s| - |r|..]
    ensures AllSpace(s[..|s| - |r|])
    ensures r != [] ==> !IsSpace(r[0])
  {
    if s != [] && IsSpace(s[0]) then
      var r := SkipSpace(s[1..]);
      assert s[1..][..|s[1..]| - |r|] == s[1..|s| - |r|];
      r
    else s
  }

  /** `s` split after its maximal leading run of non-white-space characters. */
  function SplitWord(s: string): (p: (string, string))
    ensures s == p.0 + p.1
    ensures forall k :: 0 <= k < |p.0| ==> !IsSpace(p.0[k])
    ensures p.1 != [] ==> IsSpace(p.1[0])
  {
    if s != [] && !IsSpace(s[0]) then
      var p := SplitWord(s[1..]);
      ([s[0]] + p.0, p.1)
    else ([], s)
  }

  /** `s` split before its first '\n' (or not at all). */
  function SplitLine(s: string): (p: (string, string))
    ensures s == p.0 + p.1
    ensures forall k :: 0 <= k < |p.0| ==> p.0[k] != '\n'
    ensures p.1 != [] ==> p.1[0] == '\n'
  {
    if s != [] && s[0] != '\n' then
      var p := SplitLine(s[1..]);
      ([s[0]] + p.0, p.1)
    else ([], s)
  }

  /** `s` split after its maximal leading run of decimal digits. */
  function SplitDigits(s: string): (p: (string, string))
    ensures s == p.0 + p.1
    ensures forall k :: 0 <= k < |p.0| ==> IsDigit(p.0[k])
    ensures p.1 != [] ==> !IsDigit(p.1[0])
  {
    if s != [] && IsDigit(s[0]) then
      var p := SplitDigits(s[1..]);
      ([s[0]] + p.0, p.1)
    else ([], s)
  }

  // ---- the scans over a string whose shape is known ----

  lemma {:induction false} SkipSpaceOver(w: string, rest: string)
    requires AllSpace(w) && (rest != [] ==> !IsSpace(rest[0]))
    ensures SkipSpace(w + rest) == rest
  {
    if w == [] {
      assert w + rest == rest;
    } else {
      assert (w + rest)[1..] == w[1..] + rest;
      SkipSpaceOver(w[1..], rest);
    }
  }

  lemma {:induction false} SplitWordOver(w: string, rest: string)
    requires forall k :: 0 <= k < |w| ==> !IsSpace(w[k])
    requires rest != [] ==> IsSpace(rest[0])
    ensures SplitWord(w + rest) == (w, rest)
  {
    if w == [] {
      assert w + rest == rest;
    } else {
      assert (w + rest)[1..] == w[1..] + rest;
      SplitWordOver(w[1..], rest);
      assert [w[0]] + w[1..] == w;
    }
  }

  lemma {:induction false} SplitLineOver(w: string, rest: string)
    requires forall k :: 0 <= k < |w| ==> w[k] != '\n'
    requires rest != [] ==> rest[0] == '\n'
    ensures SplitLine(w + rest) == (w, rest)
  {
    if w == [] {
      assert w + rest == rest;
    } else {
      assert (w + rest)[1..] == w[1..] + rest;
      SplitLineOver(w[1..], rest);
      assert [w[0]] + w[1..] == w;
    }
  }

  lemma {:induction false} SplitDigitsOver(w: string, rest: string)
    requires forall k :: 0 <= k < |w| ==> IsDigit(w[k])
    requires rest != [] ==> !IsDigit(rest[0])
    ensures SplitDigits(w + rest) == (w, rest)
  {
    if w == [] {
      assert w + rest == rest;
    } else {
      assert (w + rest)[1..] == w[1..] + rest;
      SplitDigitsOver(w[1..], rest);
      assert [w[0]] + w[1..] == w;
    }
  }

  /** Concatenation regroups: the one sequence fact the proofs of every
      module lean on when they split a message or a queue. */
  lemma SeqAssoc<T>(a: seq<T>, b: seq<T>, c: seq<T>)
    ensures a + (b + c) == a + b + c
  {
  }
}
