/**
 * The two built-in array operations the list mutations rely on, with the
 * semantics of the ECMAScript standard: `Array.prototype.findIndex` and
 * `Array.prototype.splice`. Arrays are sequences here; `splice` returns
 * the new contents of the array together with the removed elements.
 */
module JsArray {

  /** `findIndex(p)`: the index of the first element satisfying `p`, or -1. */
  function FindIndex<T>(s: seq<T>, p: T -> bool): (r: int)
    ensures -1 <= r < |s|
    ensures r >= 0 ==> p(s[r]) && forall j :: 0 <= j < r ==> !p(s[j])
    ensures r == -1 <==> forall j :: 0 <= j < |s| ==> !p(s[j])
  {
    if s == [] then -1
    else if p(s[0]) then 0
    else
      var t := FindIndex(s[1..], p);
      assert forall j :: 1 <= j < |s| ==> s[j] == s[1..][j - 1];
      if t == -1 then -1 else t + 1
  }

  /**
   * The position where `splice(start, …)` begins: a negative start counts
   * from the end (and is clamped at 0), a start past the end is clamped to
   * the length.
   */
  function SpliceStart(len: nat, start: int): (k: nat)
    ensures k <= len
    ensures start < 0 && len + start >= 0 ==> k == len + start
    ensures start < 0 && len + start < 0 ==> k == 0
    ensures 0 <= start ==> k == if start <= len then start else len
  {
    if start < 0 then (if len + start < 0 then 0 else len + start)
    else if start <= len then start
    else len
  }

  /** The array after a `splice`, and the array `splice` returns (the removed elements). */
  datatype Spliced<T> = Spliced(contents: seq<T>, removed: seq<T>)

  /**
   * `splice(start, deleteCount, ...items)`: removes up to `deleteCount`
   * elements from the start position and inserts `items` there.
   */
  function Splice<T>(s: seq<T>, start: int, deleteCount: int, items: seq<T>): (r: Spliced<T>)
    ensures |r.removed| <= |s| && (deleteCount <= 0 ==> r.removed == [])
    ensures |r.contents| == |s| - |r.removed| + |items|
    ensures multiset(r.contents) + multiset(r.removed) == multiset(s) + multiset(items)
  {
    var k := SpliceStart(|s|, start);
    var n := if deleteCount < 0 then 0 else if deleteCount <= |s| - k then deleteCount else |s| - k;
    assert s == s[..k] + s[k..k + n] + s[k + n..];
    Spliced(s[..k] + items + s[k + n..], s[k..k + n])
  }

  /** `splice(i, 1, ...items)` at an index of the array replaces that element by `items`. */
  lemma SpliceAt<T>(s: seq<T>, i: int, items: seq<T>)
    requires 0 <= i < |s|
    ensures Splice(s, i, 1, items) == Spliced(s[..i] + items + s[i + 1..], [s[i]])
  {
  }

  /** `splice(i, 1, x)` at an index of the array is the array with `x` at `i`. */
  lemma SpliceReplace<T>(s: seq<T>, i: int, x: T)
    requires 0 <= i < |s|
    ensures Splice(s, i, 1, [x]).contents == s[i := x]
  {
    var r := Splice(s, i, 1, [x]).contents;
    assert r == s[..i] + [x] + s[i + 1..];
    assert |r| == |s|;
    forall j | 0 <= j < |s| ensures r[j] == s[i := x][j] {
      if j < i {
        assert r[j] == s[..i][j];
      } else if j > i {
        assert r[j] == s[i + 1..][j - i - 1];
      }
    }
  }

  /** `splice(-1, 1, ...items)` on a non-empty array replaces the last element. */
  lemma SpliceMinusOne<T>(s: seq<T>, items: seq<T>)
    requires |s| > 0
    ensures Splice(s, -1, 1, items) == Spliced(s[..|s| - 1] + items, [s[|s| - 1]])
  {
    assert s[|s|..] == [];
  }

  /** `splice(…, 1, ...items)` on an empty array removes nothing and inserts `items`. */
  lemma SpliceEmpty<T>(start: int, items: seq<T>)
    ensures Splice([], start, 1, items) == Spliced(items, [])
  {
  }
}
