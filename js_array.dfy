/** The JavaScript Array built-ins the route handlers use to edit the embedded
    lists of a document: `indexOf`, `splice(start, 1)` and `unshift`. */
module JsArray {

  /** No element occurs twice. */
  predicate Distinct<T(==)>(s: seq<T>) {
    forall i, j :: 0 <= i < j < |s| ==> s[i] != s[j]
  }

  /** `s.indexOf(x)`: the first index holding `x`, or -1 when there is none. */
  function IndexOf<T(==)>(s: seq<T>, x: T): (r: int)
    ensures -1 <= r < |s|
    ensures r == -1 <==> x !in s
    ensures r >= 0 ==> s[r] == x && forall j :: 0 <= j < r ==> s[j] != x
  {
    if |s| == 0 then -1
    else if s[0] == x then 0
    else
      var k := IndexOf(s[1..], x);
      assert s == [s[0]] + s[1..];
      if k == -1 then -1 else k + 1
  }

  /** The position `splice(start, ...)` starts at: a negative `start` counts
      back from the end and is clamped at 0, a `start` past the end is clamped
      to the length. */
  function SpliceStart(len: nat, start: int): (k: nat)
    ensures k <= len
    ensures 0 <= start <= len ==> k == start
    ensures start < 0 && len + start >= 0 ==> k == len + start
    ensures start > len ==> k == len
    ensures len + start < 0 ==> k == 0
  {
    if start < 0 then (if len + start < 0 then 0 else len + start)
    else if start > len then len else start
  }

  /** The array left behind by `s.splice(start, 1)`: one element is removed
      at `SpliceStart(|s|, start)` when that position holds one. */
  function Splice1<T>(s: seq<T>, start: int): (r: seq<T>)
    ensures start >= |s| ==> r == s
    ensures start < |s| && |s| > 0 ==> |r| == |s| - 1
    ensures multiset(r) <= multiset(s)
  {
    var k := SpliceStart(|s|, start);
    if k < |s| then
      assert s == s[..k] + [s[k]] + s[k + 1..];
      s[..k] + s[k + 1..]
    else s
  }

  /** `splice(i, 1)` at a valid index removes exactly that element. */
  lemma SpliceAt<T>(s: seq<T>, i: int)
    requires 0 <= i < |s|
    ensures Splice1(s, i) == s[..i] + s[i + 1..]
    ensures |Splice1(s, i)| == |s| - 1
  {
  }

  /** `splice(-1, 1)`, the call made when `indexOf` finds nothing, removes the
      last element of a non-empty array and leaves an empty one alone. */
  lemma SpliceMinusOne<T>(s: seq<T>)
    ensures |s| > 0 ==> Splice1(s, -1) == s[..|s| - 1]
    ensures |s| == 0 ==> Splice1(s, -1) == s
  {
  }

  /** `s.splice(keys.indexOf(x), 1)`, where `keys[i]` is the key of `s[i]`
      (the `s.map(item => item.key).indexOf(x)` idiom): when the key occurs
      the first element carrying it is removed and the others keep their
      order; when it does not, the last element goes; the array shrinks by
      one whenever it is non-empty. */
  lemma SpliceIndexOf<T, K>(s: seq<T>, keys: seq<K>, x: K)
    requires |keys| == |s|
    ensures x in keys ==>
      var i := IndexOf(keys, x);
      0 <= i < |s| && keys[i] == x && (forall j :: 0 <= j < i ==> keys[j] != x)
      && Splice1(s, i) == s[..i] + s[i + 1..]
    ensures x !in keys && |s| > 0 ==> Splice1(s, IndexOf(keys, x)) == s[..|s| - 1]
    ensures |s| == 0 ==> Splice1(s, IndexOf(keys, x)) == s
    ensures |s| > 0 ==> |Splice1(s, IndexOf(keys, x))| == |s| - 1
  {
  }

  /** Prepending (`unshift`) an element not yet present keeps a duplicate-free
      array duplicate-free. */
  lemma PrependDistinct<T>(s: seq<T>, x: T)
    requires Distinct(s) && x !in s
    ensures Distinct([x] + s)
  {
  }

  /** Removing the element at `i` from a duplicate-free array leaves an array
      that is still duplicate-free and no longer contains that element. */
  lemma RemoveAtDistinct<T>(s: seq<T>, i: int)
    requires Distinct(s) && 0 <= i < |s|
    ensures Distinct(s[..i] + s[i + 1..])
    ensures s[i] !in s[..i] + s[i + 1..]
  {
    var r := s[..i] + s[i + 1..];
    forall a, b | 0 <= a < b < |r| ensures r[a] != r[b] {
      var a' := if a < i then a else a + 1;
      var b' := if b < i then b else b + 1;
      assert r[a] == s[a'] && r[b] == s[b'] && a' < b';
    }
  }
}
