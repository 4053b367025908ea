/** The Python string operations the modelled code uses: `str.split(sep)`, `sep.join(parts)`,
    `str.replace(".", "-")` and `str.upper()`, over `string = seq<char>`. */
module Strs {

  /** `sep` occurs in `s` starting at position `i`. */
  ghost predicate MatchAt(sep: string, s: string, i: int) {
    0 <= i && i + |sep| <= |s| && s[i..i + |sep|] == sep
  }

  /** `sep` occurs somewhere in `s`. */
  ghost predicate Occurs(sep: string, s: string) {
    exists i :: MatchAt(sep, s, i)
  }

  /** `s.split(sep)` for a non-empty separator: scanning left to right, every non-overlapping
      occurrence of `sep` ends one piece; there is always at least one piece. */
  function Split(s: string, sep: string): (parts: seq<string>)
    requires |sep| > 0
    ensures |parts| >= 1
    decreases |s|
  {
    if |sep| <= |s| && s[..|sep|] == sep then [""] + Split(s[|sep|..], sep)
    else if s == [] then [""]
    else
      var rest := Split(s[1..], sep);
      [[s[0]] + rest[0]] + rest[1..]
  }

  /** The last piece, `s.split(sep)[-1]`. */
  function LastPiece(s: string, sep: string): string
    requires |sep| > 0
  {
    var parts := Split(s, sep);
    parts[|parts| - 1]
  }

  /** `sep.join(parts)`. */
  function Join(parts: seq<string>, sep: string): string {
    if |parts| == 0 then ""
    else if |parts| == 1 then parts[0]
    else parts[0] + sep + Join(parts[1..], sep)
  }

  /** `s.replace(".", "-")`. */
  function Hyphenate(s: string): (r: string)
    ensures |r| == |s|
    ensures forall i :: 0 <= i < |s| ==> r[i] == if s[i] == '.' then '-' else s[i]
  {
    if s == [] then [] else [if s[0] == '.' then '-' else s[0]] + Hyphenate(s[1..])
  }

  /** `s.upper()` on ASCII letters; other characters are kept. */
  function Upper(s: string): (r: string)
    ensures |r| == |s|
    ensures forall i :: 0 <= i < |s| ==>
      r[i] == if 'a' <= s[i] <= 'z' then (s[i] as int - 32) as char else s[i]
    ensures forall i :: 0 <= i < |r| ==> !('a' <= r[i] <= 'z')
  {
    if s == [] then []
    else [if 'a' <= s[0] <= 'z' then (s[0] as int - 32) as char else s[0]] + Upper(s[1..])
  }

  /** Upper-casing twice is upper-casing once. */
  lemma UpperIdempotent(s: string)
    ensures Upper(Upper(s)) == Upper(s)
  {
    var u := Upper(s);
    forall i | 0 <= i < |u|
      ensures Upper(u)[i] == u[i]
    {
    }
  }

  /** Joining the pieces of a split with the same separator gives back the string. */
  lemma {:induction false} JoinSplit(s: string, sep: string)
    requires |sep| > 0
    ensures Join(Split(s, sep), sep) == s
    decreases |s|
  {
    if |sep| <= |s| && s[..|sep|] == sep {
      JoinSplit(s[|sep|..], sep);
      JoinAfterSeparator(s, sep);
    } else if s != [] {
      JoinSplit(s[1..], sep);
      JoinAfterChar(s, sep);
    }
  }

  lemma JoinAfterSeparator(s: string, sep: string)
    requires 0 < |sep| <= |s| && s[..|sep|] == sep
    requires Join(Split(s[|sep|..], sep), sep) == s[|sep|..]
    ensures Join(Split(s, sep), sep) == s
  {
    SplitAtSeparator(s, sep);
    JoinEmptyFirst(Split(s[|sep|..], sep), sep);
    PrefixRest(s, |sep|);
  }

  lemma SplitAtSeparator(s: string, sep: string)
    requires 0 < |sep| <= |s| && s[..|sep|] == sep
    ensures Split(s, sep) == [""] + Split(s[|sep|..], sep)
  {
  }

  lemma JoinEmptyFirst(tail: seq<string>, sep: string)
    requires |tail| >= 1
    ensures Join([""] + tail, sep) == sep + Join(tail, sep)
  {
    var parts := [""] + tail;
    assert parts[1..] == tail;
  }

  lemma JoinAfterChar(s: string, sep: string)
    requires 0 < |sep| && s != [] && !(|sep| <= |s| && s[..|sep|] == sep)
    requires Join(Split(s[1..], sep), sep) == s[1..]
    ensures Join(Split(s, sep), sep) == s
  {
    var rest := Split(s[1..], sep);
    assert Split(s, sep) == [[s[0]] + rest[0]] + rest[1..];
    JoinConsPiece(s[0], rest, sep);
    PrefixRest(s, 1);
    assert s[..1] == [s[0]];
  }

  /** Prepending a character to the first piece prepends it to the joined string. */
  lemma JoinConsPiece(c: char, parts: seq<string>, sep: string)
    requires |parts| >= 1
    ensures Join([[c] + parts[0]] + parts[1..], sep) == [c] + Join(parts, sep)
  {
    var ps := [[c] + parts[0]] + parts[1..];
    if |parts| > 1 {
      assert ps[1..] == parts[1..];
      assert Join(ps, sep) == ([c] + parts[0]) + sep + Join(parts[1..], sep);
    }
  }

  lemma PrefixRest(s: string, k: nat)
    requires k <= |s|
    ensures s == s[..k] + s[k..]
  {
  }

  /** A match at the start is an occurrence. */
  lemma OccursAtStart(sep: string, s: string)
    ensures |sep| <= |s| && s[..|sep|] == sep ==> Occurs(sep, s)
  {
    if |sep| <= |s| && s[..|sep|] == sep {
      assert MatchAt(sep, s, 0);
    }
  }

  /** An occurrence in the tail is an occurrence. */
  lemma OccursInTail(sep: string, s: string)
    requires s != []
    ensures Occurs(sep, s[1..]) ==> Occurs(sep, s)
  {
    if Occurs(sep, s[1..]) {
      var i :| MatchAt(sep, s[1..], i);
      assert s[i + 1..i + 1 + |sep|] == s[1..][i..i + |sep|];
      assert MatchAt(sep, s, i + 1);
    }
  }

  /** A string in which the separator does not occur splits into itself alone. */
  lemma {:induction false} SplitWithoutSeparator(s: string, sep: string)
    requires |sep| > 0
    requires !Occurs(sep, s)
    ensures Split(s, sep) == [s]
    decreases |s|
  {
    if s != [] {
      OccursAtStart(sep, s);
      OccursInTail(sep, s);
      SplitWithoutSeparator(s[1..], sep);
      assert s == [s[0]] + s[1..];
    }
  }

  /** A string that starts with the separator splits into an empty piece and the rest. */
  lemma SplitAfterPrefix(sep: string, rest: string)
    requires |sep| > 0
    requires !Occurs(sep, rest)
    ensures Split(sep + rest, sep) == ["", rest]
    ensures LastPiece(sep + rest, sep) == rest
  {
    assert (sep + rest)[..|sep|] == sep;
    assert (sep + rest)[|sep|..] == rest;
    SplitWithoutSeparator(rest, sep);
  }

  /** With a one-character separator, the pieces of `a + sep + b` are those of `a` followed by
      those of `b`. */
  lemma {:induction false} SplitAround(a: string, sep: string, b: string)
    requires |sep| == 1
    ensures Split(a + sep + b, sep) == Split(a, sep) + Split(b, sep)
    decreases |a|
  {
    var s := a + sep + b;
    if a == [] {
      assert s == sep + b;
      assert s[..|sep|] == sep;
      assert s[|sep|..] == b;
    } else if a[0] == sep[0] {
      assert s[..1] == sep;
      assert s[1..] == a[1..] + sep + b;
      assert a[..1] == sep;
      SplitAround(a[1..], sep, b);
    } else {
      assert s[..1] != sep;
      assert a[..1] != sep;
      assert s[1..] == a[1..] + sep + b;
      SplitAround(a[1..], sep, b);
    }
  }

  /** `(a + "." + b).split(".")` is `[a, b]` when neither part holds a dot. */
  lemma SplitDotted(a: string, b: string)
    requires !Occurs(".", a) && !Occurs(".", b)
    ensures Split(a + "." + b, ".") == [a, b]
  {
    SplitAround(a, ".", b);
    SplitWithoutSeparator(a, ".");
    SplitWithoutSeparator(b, ".");
  }

  /** Replacing dots distributes over concatenation. */
  lemma HyphenateAppend(a: string, b: string)
    ensures Hyphenate(a + b) == Hyphenate(a) + Hyphenate(b)
  {
    var l, r := Hyphenate(a + b), Hyphenate(a) + Hyphenate(b);
    assert |l| == |r|;
    forall i | 0 <= i < |l| ensures l[i] == r[i] {
      if i < |a| { assert (a + b)[i] == a[i]; } else { assert (a + b)[i] == b[i - |a|]; }
    }
  }
}
