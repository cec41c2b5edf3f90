/** The JavaScript String built-ins behind the skills field:
    `split` on a one-character separator and `trim`. */
module JsString {
  import opened JsArray

  /** The characters `String.prototype.trim` strips: the ECMAScript
      WhiteSpace set (tab, vertical tab, form feed, the byte order mark and
      every space separator) and the LineTerminator set. */
  predicate IsWhiteSpace(c: char) {
    c == '\t' || c == '\U{000B}' || c == '\U{000C}' || c == ' ' || c == '\U{00A0}'
    || c == '\U{FEFF}' || c == '\U{1680}' || ('\U{2000}' <= c <= '\U{200A}')
    || c == '\U{202F}' || c == '\U{205F}' || c == '\U{3000}'
    || c == '\n' || c == '\r' || c == '\U{2028}' || c == '\U{2029}'
  }

  /** `s.trimStart()`: drops the leading white space and nothing else. */
  function TrimStart(s: string): (r: string)
    ensures |r| <= |s| && r == s[|s| - |r|..]
    ensures forall k :: 0 <= k < |s| - |r| ==> IsWhiteSpace(s[k])
    ensures r == [] || !IsWhiteSpace(r[0])
  {
    if |s| > 0 && IsWhiteSpace(s[0]) then TrimStart(s[1..]) else s
  }

  /** `s.trimEnd()`: drops the trailing white space and nothing else. */
  function TrimEnd(s: string): (r: string)
    ensures |r| <= |s| && r == s[..|r|]
    ensures forall k :: |r| <= k < |s| ==> IsWhiteSpace(s[k])
    ensures r == [] || !IsWhiteSpace(r[|r| - 1])
  {
    if |s| > 0 && IsWhiteSpace(s[|s| - 1]) then TrimEnd(s[..|s| - 1]) else s
  }

  /** `s.trim()`: the result is a contiguous piece `s[i..i + |r|]` of `s`,
      everything cut off on either side is white space, and the result
      neither starts nor ends with white space. */
  function Trim(s: string): (r: string)
    ensures |r| <= |s|
    ensures r == [] || (!IsWhiteSpace(r[0]) && !IsWhiteSpace(r[|r| - 1]))
    ensures exists i :: CutAt(s, r, i)
  {
    var t := TrimStart(s);
    var r := TrimEnd(t);
    assert CutAt(s, r, |s| - |t|);
    r
  }

  /** `r` is `s[i..i + |r|]` and everything of `s` around it is white space. */
  predicate CutAt(s: string, r: string, i: int) {
    && 0 <= i <= |s| - |r|
    && r == s[i..i + |r|]
    && (forall k :: 0 <= k < i ==> IsWhiteSpace(s[k]))
    && (forall k :: i + |r| <= k < |s| ==> IsWhiteSpace(s[k]))
  }

  /** Trimming twice is trimming once. */
  lemma TrimIdempotent(s: string)
    ensures Trim(Trim(s)) == Trim(s)
  {
    var r := Trim(s);
    assert TrimStart(r) == r;
    assert TrimEnd(r) == r;
  }

  /** `s.split(sep)` for a one-character separator: the pieces between the
      separators, in order, including empty ones. */
  function Split(s: string, sep: char): (r: seq<string>)
    ensures |r| >= 1
    decreases |s|
  {
    var i := IndexOf(s, sep);
    if i < 0 then [s] else [s[..i]] + Split(s[i + 1..], sep)
  }

  /** `pieces.join(sep)`. */
  function Join(pieces: seq<string>, sep: char): string {
    if |pieces| == 0 then ""
    else if |pieces| == 1 then pieces[0]
    else pieces[0] + [sep] + Join(pieces[1..], sep)
  }

  /** `split` yields one more piece than there are separators, and no piece
      holds a separator. */
  lemma {:induction false} SplitShape(s: string, sep: char)
    ensures |Split(s, sep)| == multiset(s)[sep] + 1
    ensures forall p :: p in Split(s, sep) ==> sep !in p
    decreases |s|
  {
    var i := IndexOf(s, sep);
    if i >= 0 {
      var p, tail := s[..i], s[i + 1..];
      assert s == p + [sep] + tail;
      SplitAfterFirst(p, tail, sep);
      SeparatorCount(p, tail, sep);
      SplitShape(tail, sep);
    } else {
      assert multiset(s)[sep] == 0;
    }
  }

  /** A separator-free prefix and one separator add exactly one separator to
      the count of the rest. */
  lemma SeparatorCount(p: string, t: string, sep: char)
    requires sep !in p
    ensures multiset(p + [sep] + t)[sep] == multiset(t)[sep] + 1
  {
    assert multiset(p + [sep] + t) == multiset(p) + multiset{sep} + multiset(t);
    assert multiset(p)[sep] == 0;
  }

  /** Joining the pieces of a split with the same separator gives the string
      back. */
  lemma {:induction false} JoinSplit(s: string, sep: char)
    ensures Join(Split(s, sep), sep) == s
    decreases |s|
  {
    var i := IndexOf(s, sep);
    if i >= 0 {
      var p, tail := s[..i], s[i + 1..];
      assert s == p + [sep] + tail;
      JoinSplitStep(p, tail, sep);
      JoinSplit(tail, sep);
    } else {
      assert Split(s, sep) == [s];
    }
  }

  /** One step of `JoinSplit`: past the first separator the join carries on
      with the pieces of the rest. */
  lemma JoinSplitStep(p: string, t: string, sep: char)
    requires sep !in p
    ensures Join(Split(p + [sep] + t, sep), sep) == p + [sep] + Join(Split(t, sep), sep)
  {
    SplitAfterFirst(p, t, sep);
    JoinCons(p, Split(t, sep), sep);
  }

  /** Joining a first piece in front of a non-empty list puts one separator
      between them. */
  lemma JoinCons(p: string, rest: seq<string>, sep: char)
    requires |rest| >= 1
    ensures Join([p] + rest, sep) == p + [sep] + Join(rest, sep)
  {
    assert ([p] + rest)[1..] == rest;
  }

  /** Conversely, splitting the join of separator-free pieces gives the pieces
      back. */
  lemma {:induction false} SplitJoin(pieces: seq<string>, sep: char)
    requires |pieces| >= 1
    requires forall p :: p in pieces ==> sep !in p
    ensures Split(Join(pieces, sep), sep) == pieces
    decreases |pieces|
  {
    if |pieces| == 1 {
      assert IndexOf(pieces[0], sep) == -1;
    } else {
      var tail := Join(pieces[1..], sep);
      SplitAfterFirst(pieces[0], tail, sep);
      SplitJoin(pieces[1..], sep);
      assert pieces == [pieces[0]] + pieces[1..];
    }
  }

  /** Splitting `p + [sep] + t` when `p` holds no separator cuts at the
      separator after `p`. */
  lemma SplitAfterFirst(p: string, t: string, sep: char)
    requires sep !in p
    ensures Split(p + [sep] + t, sep) == [p] + Split(t, sep)
  {
    var s := p + [sep] + t;
    assert s[|p|] == sep;
    assert forall j :: 0 <= j < |p| ==> s[j] == p[j];
    assert IndexOf(s, sep) == |p|;
    assert s[..|p|] == p;
    assert s[|p| + 1..] == t;
  }
}
