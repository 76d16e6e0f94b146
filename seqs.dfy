/**
 * The three array idioms every handler of the dashboard is built from:
 * `filter`, `map` with a conditional replacement, and `find`.
 */
module Seqs {
  import opened Basics

  /** `s.filter(keep)`: the kept items, in their original order. */
  function Filter<T>(s: seq<T>, keep: T -> bool): (r: seq<T>)
    ensures |r| <= |s|
    ensures forall i :: 0 <= i < |r| ==> r[i] in s && keep(r[i])
    ensures forall i :: 0 <= i < |s| && keep(s[i]) ==> s[i] in r
  {
    if s == [] then []
    else
      assert s == [s[0]] + s[1..];
      if keep(s[0]) then [s[0]] + Filter(s[1..], keep) else Filter(s[1..], keep)
  }

  /** Filtering distributes over concatenation, so relative order is kept. */
  lemma {:induction false} FilterAppend<T>(a: seq<T>, b: seq<T>, keep: T -> bool)
    ensures Filter(a + b, keep) == Filter(a, keep) + Filter(b, keep)
  {
    if a != [] {
      assert (a + b)[0] == a[0] && (a + b)[1..] == a[1..] + b;
      FilterAppend(a[1..], b, keep);
    } else {
      assert a + b == b;
    }
  }

  /** A filter that keeps every item is the identity. */
  lemma {:induction false} FilterKeepsAll<T>(s: seq<T>, keep: T -> bool)
    requires forall i :: 0 <= i < |s| ==> keep(s[i])
    ensures Filter(s, keep) == s
  {
    if s != [] {
      FilterKeepsAll(s[1..], keep);
    }
  }

  /** A filter that keeps nothing yields the empty sequence. */
  lemma {:induction false} FilterKeepsNone<T>(s: seq<T>, keep: T -> bool)
    requires forall i :: 0 <= i < |s| ==> !keep(s[i])
    ensures Filter(s, keep) == []
  {
    if s != [] {
      FilterKeepsNone(s[1..], keep);
    }
  }

  /** A filter that drops something makes the sequence strictly shorter. */
  lemma {:induction false} FilterShrinks<T>(s: seq<T>, keep: T -> bool, i: nat)
    requires i < |s| && !keep(s[i])
    ensures |Filter(s, keep)| < |s|
  {
    if i > 0 {
      FilterShrinks(s[1..], keep, i - 1);
    } else if s[1..] != [] {
      assert |Filter(s[1..], keep)| <= |s[1..]|;
    }
  }

  /** A filter keeps its whole input exactly when every item passes. */
  lemma {:induction false} FilterKeepsAllIff<T>(s: seq<T>, keep: T -> bool)
    ensures |Filter(s, keep)| == |s| <==> forall i :: 0 <= i < |s| ==> keep(s[i])
  {
    if forall i :: 0 <= i < |s| ==> keep(s[i]) {
      FilterKeepsAll(s, keep);
    } else {
      var i :| 0 <= i < |s| && !keep(s[i]);
      FilterShrinks(s, keep, i);
    }
  }

  /** A filter keeps nothing exactly when no item passes. */
  lemma {:induction false} FilterKeepsNoneIff<T>(s: seq<T>, keep: T -> bool)
    ensures |Filter(s, keep)| == 0 <==> forall i :: 0 <= i < |s| ==> !keep(s[i])
  {
    if forall i :: 0 <= i < |s| ==> !keep(s[i]) {
      FilterKeepsNone(s, keep);
    } else {
      var i :| 0 <= i < |s| && keep(s[i]);
      assert s[i] in Filter(s, keep);
    }
  }

  /** Appending one item adds one to the kept count exactly when the item passes. */
  lemma {:induction false} FilterCountAppend<T>(s: seq<T>, x: T, keep: T -> bool)
    ensures |Filter(s + [x], keep)| == |Filter(s, keep)| + (if keep(x) then 1 else 0)
  {
    FilterAppend(s, [x], keep);
    assert [x][1..] == [];
  }

  /** `s.map(x => hit(x) ? f(x) : x)`: position by position replacement. */
  function MapIf<T>(s: seq<T>, hit: T -> bool, f: T -> T): (r: seq<T>)
    ensures |r| == |s|
    ensures forall i :: 0 <= i < |s| ==> r[i] == (if hit(s[i]) then f(s[i]) else s[i])
  {
    if s == [] then []
    else [if hit(s[0]) then f(s[0]) else s[0]] + MapIf(s[1..], hit, f)
  }

  /** A replacement that never changes what `p` says of a replaced item leaves `p`'s first match where it was. */
  lemma {:induction false} FindIndexMapIf<T>(s: seq<T>, hit: T -> bool, f: T -> T, p: T -> bool)
    requires forall i :: 0 <= i < |s| && hit(s[i]) ==> p(f(s[i])) == p(s[i])
    ensures FindIndex(MapIf(s, hit, f), p) == FindIndex(s, p)
  {
    if s != [] {
      FindIndexMapIf(s[1..], hit, f, p);
      assert MapIf(s, hit, f)[1..] == MapIf(s[1..], hit, f);
    }
  }

  /** Index of the first item satisfying `p`, as `findIndex` computes it. */
  function FindIndex<T>(s: seq<T>, p: T -> bool): (r: Option<nat>)
    ensures r.Some? ==> r.value < |s| && p(s[r.value])
    ensures r.Some? ==> forall j :: 0 <= j < r.value ==> !p(s[j])
    ensures r.None? <==> forall i :: 0 <= i < |s| ==> !p(s[i])
  {
    if s == [] then None
    else if p(s[0]) then Some(0)
    else match FindIndex(s[1..], p)
      case None => None
      case Some(k) => Some(k + 1)
  }

  /** `s.find(p)`: the first item satisfying `p`, if any. */
  function Find<T>(s: seq<T>, p: T -> bool): (r: Option<T>)
    ensures r.Some? ==> r.value in s && p(r.value)
    ensures r.None? <==> forall i :: 0 <= i < |s| ==> !p(s[i])
    ensures forall i :: 0 <= i < |s| && p(s[i]) && (forall j :: 0 <= j < i ==> !p(s[j])) ==> r == Some(s[i])
  {
    match FindIndex(s, p)
    case None => None
    case Some(k) => Some(s[k])
  }
}
