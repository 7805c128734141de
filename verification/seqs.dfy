/** Generic list operations that the TypeScript code uses through Array
    built-ins: `findIndex`/`find`, `filter`, `some` and `splice(i, 1)`. */
module Seqs {

  /** `Array.prototype.findIndex`: the first index whose element satisfies `p`, or -1. */
  function FirstIndex<T>(s: seq<T>, p: T -> bool): (r: int)
    ensures -1 <= r < |s|
    ensures r >= 0 ==> p(s[r])
    ensures r >= 0 ==> forall j :: 0 <= j < r ==> !p(s[j])
    ensures r < 0 <==> forall j :: 0 <= j < |s| ==> !p(s[j])
  {
    if s == [] then -1
    else if p(s[0]) then 0
    else
      var k := FirstIndex(s[1..], p);
      if k < 0 then -1 else k + 1
  }

  /** Searching two concatenated lists finds the first list's match when it
      has one, and otherwise the second's, shifted past the first. */
  lemma {:induction false} FirstIndexAppend<T>(a: seq<T>, b: seq<T>, p: T -> bool)
    ensures FirstIndex(a + b, p) ==
              if FirstIndex(a, p) >= 0 then FirstIndex(a, p)
              else if FirstIndex(b, p) >= 0 then |a| + FirstIndex(b, p)
              else -1
  {
    if a == [] {
      assert a + b == b;
    } else {
      assert (a + b)[0] == a[0] && (a + b)[1..] == a[1..] + b;
      FirstIndexAppend(a[1..], b, p);
    }
  }

  /** `Array.prototype.some`. */
  predicate Any<T>(s: seq<T>, p: T -> bool)
  {
    exists j :: 0 <= j < |s| && p(s[j])
  }

  lemma AnyIffFirstIndex<T>(s: seq<T>, p: T -> bool)
    ensures Any(s, p) <==> FirstIndex(s, p) >= 0
  {
  }

  /** Two lists of the same length whose elements answer alike at every position. */
  lemma AnyPointwise<T, U>(s: seq<T>, p: T -> bool, t: seq<U>, q: U -> bool)
    requires |s| == |t| && forall j :: 0 <= j < |s| ==> p(s[j]) == q(t[j])
    ensures Any(s, p) == Any(t, q)
  {
    if Any(s, p) {
      var j :| 0 <= j < |s| && p(s[j]);
      assert q(t[j]);
    }
    if Any(t, q) {
      var j :| 0 <= j < |t| && q(t[j]);
      assert p(s[j]);
    }
  }

  /** Appending elements that fail `p` does not change `some`. */
  lemma AnyAppendNone<T>(s: seq<T>, extra: seq<T>, p: T -> bool)
    requires forall j :: 0 <= j < |extra| ==> !p(extra[j])
    ensures Any(s + extra, p) == Any(s, p)
  {
    if Any(s + extra, p) {
      var j :| 0 <= j < |s + extra| && p((s + extra)[j]);
      assert j < |s| && p(s[j]);
    }
    if Any(s, p) {
      var j :| 0 <= j < |s| && p(s[j]);
      assert p((s + extra)[j]);
    }
  }

  /** `Array.prototype.filter`. */
  function Filter<T>(s: seq<T>, p: T -> bool): (r: seq<T>)
    ensures |r| <= |s|
    ensures forall x :: x in r ==> x in s && p(x)
    ensures forall j :: 0 <= j < |s| && p(s[j]) ==> s[j] in r
  {
    if s == [] then []
    else if p(s[0]) then [s[0]] + Filter(s[1..], p)
    else Filter(s[1..], p)
  }

  /** Filtering keeps the relative order: it distributes over concatenation. */
  lemma {:induction false} FilterAppend<T>(a: seq<T>, b: seq<T>, p: T -> bool)
    ensures Filter(a + b, p) == Filter(a, p) + Filter(b, p)
  {
    if a == [] {
      assert a + b == b;
    } else {
      assert (a + b)[1..] == a[1..] + b;
      FilterAppend(a[1..], b, p);
    }
  }

  /** An element that is kept lands after exactly the kept elements before it. */
  lemma FilterPosition<T>(s: seq<T>, k: nat, p: T -> bool)
    requires k < |s| && p(s[k])
    ensures |Filter(s[..k], p)| < |Filter(s, p)|
    ensures Filter(s, p)[|Filter(s[..k], p)|] == s[k]
  {
    assert s == s[..k] + s[k..];
    FilterAppend(s[..k], s[k..], p);
    assert s[k..][0] == s[k];
  }

  /** The number of elements satisfying `p` (`filter(p).length`). */
  function Count<T>(s: seq<T>, p: T -> bool): (n: nat)
    ensures n <= |s|
    ensures n == |Filter(s, p)|
  {
    if s == [] then 0 else (if p(s[0]) then 1 else 0) + Count(s[1..], p)
  }

  /** Counting a list split in two is counting each part. */
  lemma {:induction false} CountAppend<T>(a: seq<T>, b: seq<T>, p: T -> bool)
    ensures Count(a + b, p) == Count(a, p) + Count(b, p)
  {
    if a == [] {
      assert a + b == b;
    } else {
      assert (a + b)[0] == a[0] && (a + b)[1..] == a[1..] + b;
      CountAppend(a[1..], b, p);
    }
  }

  /** Counting one more element at the end. */
  lemma CountSnoc<T>(s: seq<T>, x: T, p: T -> bool)
    ensures Count(s + [x], p) == Count(s, p) + (if p(x) then 1 else 0)
  {
    CountAppend(s, [x], p);
    assert [x][1..] == [];
  }

  /** The start position that `splice(i, 1)` uses: a negative index counts from the end. */
  function SpliceStart(len: nat, i: int): (k: nat)
    ensures i >= 0 ==> k == i
    ensures i < 0 && len + i >= 0 ==> k == len + i
    ensures i < 0 && len + i < 0 ==> k == 0
  {
    if i >= 0 then i else if len + i >= 0 then len + i else 0
  }

  /** `splice(i, 1)`: removes the element at `SpliceStart(|s|, i)` when it exists. */
  function SpliceOut<T>(s: seq<T>, i: int): (r: seq<T>)
    ensures SpliceStart(|s|, i) >= |s| ==> r == s
    ensures SpliceStart(|s|, i) < |s| ==>
              |r| == |s| - 1 &&
              (forall j :: 0 <= j < SpliceStart(|s|, i) ==> r[j] == s[j]) &&
              (forall j :: SpliceStart(|s|, i) <= j < |r| ==> r[j] == s[j + 1])
  {
    var k := SpliceStart(|s|, i);
    if k < |s| then s[..k] + s[k + 1..] else s
  }

  /** `splice(i, 0, ...items)` for a start inside the list, and `unshift(...items)`
      when the start is 0: the items go in before position `i`. */
  function InsertAt<T>(s: seq<T>, i: nat, items: seq<T>): (r: seq<T>)
    requires i <= |s|
    ensures |r| == |s| + |items|
    ensures r[..i] == s[..i] && r[i..i + |items|] == items && r[i + |items|..] == s[i..]
  {
    s[..i] + items + s[i..]
  }

  /** `unshift(...h)` followed by two `splice`s that slot `m` and then `j` in
      right after what went before: the three land in front, in order. */
  lemma InsertThreeInFront<T>(h: seq<T>, m: seq<T>, j: seq<T>, l: seq<T>)
    ensures InsertAt(InsertAt(InsertAt(l, 0, h), |h|, m), |h| + |m|, j) == h + m + j + l
  {
    var s1 := InsertAt(l, 0, h);
    assert s1 == h + l;
    var s2 := InsertAt(s1, |h|, m);
    assert s2[..|h|] == h && s2[|h|..] == m + l;
    assert s2 == h + m + l;
    assert s2[..|h| + |m|] == h + m && s2[|h| + |m|..] == l;
  }
}
