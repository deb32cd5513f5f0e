/**
 * Keyed sequences: the JavaScript idioms the front end uses to keep one
 * entry per case-insensitive key.
 *
 *  - `FirstByKey`: a `seen` set / `Map.has` guard in front of a push, so the
 *    FIRST element with a key wins and input order is kept;
 *  - `Put`: `Map.set` on an insertion-ordered map, or `findIndex` followed by
 *    `arr[i] = x` / `arr.push(x)`: the LAST write for a key wins, at the
 *    position where the key first appeared;
 *  - `Filter` and `SortBy`: `Array.prototype.filter` and the (stable)
 *    `Array.prototype.sort` with a comparator.
 */
module Keyed {
  import opened Common

  // ---------------------------------------------------------------------
  // Keys.

  function KeysOf<T>(s: seq<T>, key: T -> string): (r: set<string>)
    ensures forall i :: 0 <= i < |s| ==> key(s[i]) in r
    ensures forall k :: k in r ==> exists i :: 0 <= i < |s| && key(s[i]) == k
  {
    set i | 0 <= i < |s| :: key(s[i])
  }

  lemma KeysOfSnoc<T>(s: seq<T>, key: T -> string, x: T)
    ensures KeysOf(s + [x], key) == KeysOf(s, key) + {key(x)}
  {
    var t := s + [x];
    assert t[|s|] == x;
    forall k | k in KeysOf(t, key) ensures k in KeysOf(s, key) + {key(x)} {
      var i :| 0 <= i < |t| && key(t[i]) == k;
      if i < |s| { assert t[i] == s[i]; }
    }
    forall k | k in KeysOf(s, key) ensures k in KeysOf(t, key) {
      var i :| 0 <= i < |s| && key(s[i]) == k;
      assert t[i] == s[i];
    }
  }

  predicate DistinctKeys<T>(s: seq<T>, key: T -> string)
  {
    forall i, j :: 0 <= i < j < |s| ==> key(s[i]) != key(s[j])
  }

  /** Position `i` holds the first element of `s` with its key. */
  predicate FirstAt<T>(s: seq<T>, key: T -> string, i: nat)
    requires i < |s|
  {
    forall j :: 0 <= j < i ==> key(s[j]) != key(s[i])
  }

  // ---------------------------------------------------------------------
  // First wins.

  /**
   * The loop `for x of s { k = key(x); if (seen.has(k)) continue; seen.add(k); out.push(x) }`,
   * written one input element at a time from the left.
   */
  function FirstByKey<T>(s: seq<T>, key: T -> string): (r: seq<T>)
    ensures |r| <= |s|
    ensures KeysOf(r, key) == KeysOf(s, key)
    ensures DistinctKeys(r, key)
    ensures forall i :: 0 <= i < |r| ==> r[i] in s
  {
    if |s| == 0 then []
    else
      var prev := FirstByKey(s[..|s| - 1], key);
      var x := s[|s| - 1];
      LastSplit(s);
      KeysOfSnoc(s[..|s| - 1], key, x);
      KeysOfSnoc(prev, key, x);
      if key(x) in KeysOf(prev, key) then prev else prev + [x]
  }

  /** Reference definition: keep exactly the positions that are first for their key. */
  function Firsts<T>(s: seq<T>, key: T -> string): seq<T>
  {
    if |s| == 0 then []
    else Firsts(s[..|s| - 1], key) + (if FirstAt(s, key, |s| - 1) then [s[|s| - 1]] else [])
  }

  lemma FirstAtIffNewKey<T>(s: seq<T>, key: T -> string)
    requires |s| > 0
    ensures FirstAt(s, key, |s| - 1) <==> key(s[|s| - 1]) !in KeysOf(s[..|s| - 1], key)
  {
    var p := s[..|s| - 1];
    if key(s[|s| - 1]) in KeysOf(p, key) {
      var i :| 0 <= i < |p| && key(p[i]) == key(s[|s| - 1]);
      assert key(s[i]) == key(s[|s| - 1]);
    }
  }

  /** The first-wins loop keeps exactly the first occurrence of every key, in input order. */
  lemma {:induction false} FirstByKeyIsFirsts<T>(s: seq<T>, key: T -> string)
    ensures FirstByKey(s, key) == Firsts(s, key)
  {
    if |s| > 0 {
      FirstByKeyIsFirsts(s[..|s| - 1], key);
      FirstAtIffNewKey(s, key);
    }
  }

  /** An input whose keys are already distinct passes through unchanged. */
  lemma {:induction false} FirstByKeyOfDistinct<T>(s: seq<T>, key: T -> string)
    requires DistinctKeys(s, key)
    ensures FirstByKey(s, key) == s
  {
    if |s| > 0 {
      var p := s[..|s| - 1];
      assert DistinctKeys(p, key);
      FirstByKeyOfDistinct(p, key);
      FirstAtIffNewKey(s, key);
      assert FirstAt(s, key, |s| - 1);
      LastSplit(s);
    }
  }

  lemma FirstByKeySnoc<T>(s: seq<T>, key: T -> string, x: T)
    ensures FirstByKey(s + [x], key) ==
      if key(x) in KeysOf(s, key) then FirstByKey(s, key) else FirstByKey(s, key) + [x]
  {
    assert (s + [x])[..|s|] == s;
  }

  lemma FilterSnoc<T>(s: seq<T>, keep: T -> bool, i: nat)
    requires i < |s|
    ensures Filter(s[..i + 1], keep) == Filter(s[..i], keep) + (if keep(s[i]) then [s[i]] else [])
  {
    assert s[..i + 1][..i] == s[..i];
  }

  /** One step of the guarded-push loop, as a fact about the first-wins function. */
  lemma PushFirstsStep<T>(prev: seq<T>, s: seq<T>, key: T -> string, keep: T -> bool, i: nat)
    requires i < |s|
    ensures var p, p' := prev + Filter(s[..i], keep), prev + Filter(s[..i + 1], keep);
      && (keep(s[i]) ==> (p' == p + [s[i]] && KeysOf(p', key) == KeysOf(p, key) + {key(s[i])}
                          && FirstByKey(p', key) == if key(s[i]) in KeysOf(p, key) then FirstByKey(p, key) else FirstByKey(p, key) + [s[i]]))
      && (!keep(s[i]) ==> p' == p)
  {
    var p := prev + Filter(s[..i], keep);
    FilterSnoc(s, keep, i);
    if keep(s[i]) {
      assert prev + Filter(s[..i + 1], keep) == p + [s[i]];
      FirstByKeySnoc(p, key, s[i]);
      KeysOfSnoc(p, key, s[i]);
    }
  }

  /**
   * The loop `for (const x of s) { if (!keep(x)) continue; if (seen.has(key(x))) continue; seen.add(key(x)); out.push(x) }`,
   * continuing from an `out` and `seen` that already hold the first-wins result of `prev`.
   */
  method PushFirsts<T>(out: seq<T>, seen: set<string>, s: seq<T>, key: T -> string, keep: T -> bool, ghost prev: seq<T>)
    returns (out': seq<T>, seen': set<string>)
    requires out == FirstByKey(prev, key) && seen == KeysOf(prev, key)
    ensures out' == FirstByKey(prev + Filter(s, keep), key) && seen' == KeysOf(prev + Filter(s, keep), key)
  {
    out', seen' := out, seen;
    assert prev + Filter(s[..0], keep) == prev;
    for i := 0 to |s|
      invariant out' == FirstByKey(prev + Filter(s[..i], keep), key)
      invariant seen' == KeysOf(prev + Filter(s[..i], keep), key)
    {
      PushFirstsStep(prev, s, key, keep, i);
      if keep(s[i]) && key(s[i]) !in seen' {
        seen' := seen' + {key(s[i])};
        out' := out' + [s[i]];
      }
    }
    assert s[..|s|] == s;
  }

  /** The loop `for (const x of s) { if (!seen.has(key(x))) { seen.add(key(x)); out.push(x) } }`. */
  method KeepFirsts<T>(s: seq<T>, key: T -> string) returns (out: seq<T>)
    ensures out == FirstByKey(s, key)
  {
    out := [];
    var seen: set<string> := {};
    for i := 0 to |s|
      invariant out == FirstByKey(s[..i], key)
      invariant seen == KeysOf(s[..i], key)
    {
      KeepFirstsStep(s, key, i);
      if key(s[i]) !in seen {
        seen := seen + {key(s[i])};
        out := out + [s[i]];
      }
    }
    SliceAll(s);
  }

  /** One step of the first-wins loop over the prefixes of `s`. */
  lemma KeepFirstsStep<T>(s: seq<T>, key: T -> string, i: nat)
    requires i < |s|
    ensures FirstByKey(s[..i + 1], key) ==
      if key(s[i]) in KeysOf(s[..i], key) then FirstByKey(s[..i], key) else FirstByKey(s[..i], key) + [s[i]]
    ensures KeysOf(s[..i + 1], key) == KeysOf(s[..i], key) + {key(s[i])}
  {
    SliceSnoc([], s, i);
    assert [] + s[..i] == s[..i] && [] + s[..i + 1] == s[..i + 1];
    FirstByKeySnoc(s[..i], key, s[i]);
    KeysOfSnoc(s[..i], key, s[i]);
  }

  lemma SliceAll<T>(s: seq<T>)
    ensures s[..|s|] == s
  {
  }

  lemma LastSplit<T>(s: seq<T>)
    requires |s| > 0
    ensures s[..|s| - 1] + [s[|s| - 1]] == s
  {
  }

  /** Concatenation of the lists that arrived, skipping the ones that failed. */
  function ConcatSome<T>(vals: seq<Option<seq<T>>>): seq<T>
  {
    if |vals| == 0 then []
    else ConcatSome(vals[..|vals| - 1]) + (if vals[|vals| - 1].Some? then vals[|vals| - 1].value else [])
  }

  lemma ConcatSomeSnoc<T>(vals: seq<Option<seq<T>>>, i: nat)
    requires i < |vals|
    ensures ConcatSome(vals[..i + 1]) == ConcatSome(vals[..i]) + (if vals[i].Some? then vals[i].value else [])
  {
    assert vals[..i + 1][..i] == vals[..i];
  }

  /** `f` over a sequence, element by element. */
  function MapSeq<T, U>(s: seq<T>, f: T -> U): seq<U>
  {
    if |s| == 0 then [] else MapSeq(s[..|s| - 1], f) + [f(s[|s| - 1])]
  }

  lemma {:induction false} MapSeqIndex<T, U>(s: seq<T>, f: T -> U)
    ensures |MapSeq(s, f)| == |s|
    ensures forall i :: 0 <= i < |s| ==> MapSeq(s, f)[i] == f(s[i])
  {
    if |s| > 0 {
      MapSeqIndex(s[..|s| - 1], f);
    }
  }

  lemma MapSeqSnoc<T, U>(s: seq<T>, f: T -> U, x: T)
    ensures MapSeq(s + [x], f) == MapSeq(s, f) + [f(x)]
  {
    assert (s + [x])[..|s|] == s;
  }

  lemma Regroup<T>(a: seq<T>, x: seq<T>, b: seq<T>)
    ensures a + (x + b) == (a + x) + b
  {
  }

  lemma TakeSnoc<T>(s: seq<T>, i: nat)
    requires i < |s|
    ensures s[..i + 1] == s[..i] + [s[i]]
  {
  }

  lemma SliceSnoc<T>(prev: seq<T>, s: seq<T>, i: nat)
    requires i < |s|
    ensures prev + s[..i + 1] == (prev + s[..i]) + [s[i]]
  {
    assert s[..i + 1] == s[..i] + [s[i]];
  }

  /** One step of a first-wins map that stores `f(x)` for the first `x` of each key. */
  method PushFirstMapped<T, U>(out: seq<U>, seen: set<string>, x: T, key: T -> string, f: T -> U, ghost prev: seq<T>)
    returns (out': seq<U>, seen': set<string>)
    requires out == MapSeq(FirstByKey(prev, key), f) && seen == KeysOf(prev, key)
    ensures out' == MapSeq(FirstByKey(prev + [x], key), f) && seen' == KeysOf(prev + [x], key)
  {
    FirstByKeySnoc(prev, key, x);
    KeysOfSnoc(prev, key, x);
    MapSeqSnoc(FirstByKey(prev, key), f, x);
    if key(x) in seen {
      return out, seen;
    }
    seen' := seen + {key(x)};
    out' := out + [f(x)];
  }

  /**
   * The loop `for (const x of s) { if (seen.has(key(x))) continue; m.set(key(x), f(x)) }`,
   * continuing from a map that already holds the first-wins result of `prev`.
   */
  method PushFirstsMapped<T, U>(out: seq<U>, seen: set<string>, s: seq<T>, key: T -> string, f: T -> U, ghost prev: seq<T>)
    returns (out': seq<U>, seen': set<string>)
    requires out == MapSeq(FirstByKey(prev, key), f) && seen == KeysOf(prev, key)
    ensures out' == MapSeq(FirstByKey(prev + s, key), f) && seen' == KeysOf(prev + s, key)
  {
    out', seen' := out, seen;
    assert prev + s[..0] == prev;
    for i := 0 to |s|
      invariant out' == MapSeq(FirstByKey(prev + s[..i], key), f)
      invariant seen' == KeysOf(prev + s[..i], key)
    {
      ghost var p := prev + s[..i];
      SliceSnoc(prev, s, i);
      out', seen' := PushFirstMapped(out', seen', s[i], key, f, p);
    }
    assert s[..|s|] == s;
  }

  // ---------------------------------------------------------------------
  // Last write wins, in place.

  /** `arr.findIndex(x => key(x) === k)`, as an option. */
  function IndexOfKey<T>(s: seq<T>, key: T -> string, k: string): (r: Option<nat>)
    ensures r.None? <==> k !in KeysOf(s, key)
    ensures r.Some? ==> r.value < |s| && key(s[r.value]) == k && FirstAt(s, key, r.value)
  {
    if |s| == 0 then None
    else
      match IndexOfKey(s[..|s| - 1], key, k)
      case Some(i) => Some(i)
      case None => if key(s[|s| - 1]) == k then Some(|s| - 1) else None
  }

  /** Overwrite the first entry with the key of `x`, or append `x`. */
  function Put<T>(s: seq<T>, key: T -> string, x: T): (r: seq<T>)
  {
    match IndexOfKey(s, key, key(x))
    case Some(i) => s[i := x]
    case None => s + [x]
  }

  lemma PutProperties<T>(s: seq<T>, key: T -> string, x: T)
    ensures var r := Put(s, key, x);
      && x in r
      && KeysOf(r, key) == KeysOf(s, key) + {key(x)}
      && |r| == (if key(x) in KeysOf(s, key) then |s| else |s| + 1)
      && (DistinctKeys(s, key) ==> DistinctKeys(r, key))
      && (forall i :: 0 <= i < |s| && key(s[i]) != key(x) ==> r[i] == s[i])
  {
    var r := Put(s, key, x);
    match IndexOfKey(s, key, key(x))
    case Some(i) =>
      assert r[i] == x;
      assert forall j :: 0 <= j < |r| ==> key(r[j]) == key(s[j]);
      assert KeysOf(r, key) == KeysOf(s, key);
    case None =>
      assert r[|s|] == x;
      assert forall j :: 0 <= j < |s| ==> r[j] == s[j];
  }

  /** Writing the same element twice is writing it once. */
  lemma PutIdempotent<T>(s: seq<T>, key: T -> string, x: T)
    ensures Put(Put(s, key, x), key, x) == Put(s, key, x)
  {
    var r := Put(s, key, x);
    PutProperties(s, key, x);
    var j := IndexOfKey(r, key, key(x));
    match IndexOfKey(s, key, key(x)) {
      case Some(i) =>
        assert r[i] == x;
        assert forall k :: 0 <= k < i ==> key(r[k]) != key(x);
        assert j.value == i;
      case None =>
        assert forall k :: 0 <= k < |s| ==> key(r[k]) != key(x);
        assert r[|s|] == x;
        assert j.value == |s|;
    }
  }

  /** `xs.forEach(x => map.set(key(x), x))` on an insertion-ordered map. */
  function PutAll<T>(s: seq<T>, key: T -> string, xs: seq<T>): seq<T>
  {
    if |xs| == 0 then s else Put(PutAll(s, key, xs[..|xs| - 1]), key, xs[|xs| - 1])
  }

  lemma {:induction false} PutAllKeys<T>(s: seq<T>, key: T -> string, xs: seq<T>)
    ensures KeysOf(PutAll(s, key, xs), key) == KeysOf(s, key) + KeysOf(xs, key)
  {
    if |xs| > 0 {
      var n := |xs| - 1;
      PutAllKeys(s, key, xs[..n]);
      PutProperties(PutAll(s, key, xs[..n]), key, xs[n]);
      KeysOfSnoc(xs[..n], key, xs[n]);
      LastSplit(xs);
    }
  }

  lemma {:induction false} PutAllDistinct<T>(s: seq<T>, key: T -> string, xs: seq<T>)
    requires DistinctKeys(s, key)
    ensures DistinctKeys(PutAll(s, key, xs), key)
  {
    if |xs| > 0 {
      var n := |xs| - 1;
      PutAllDistinct(s, key, xs[..n]);
      PutProperties(PutAll(s, key, xs[..n]), key, xs[n]);
    }
  }

  /** Put keeps every old entry whose key differs from the written one, and adds only the written one. */
  lemma PutFrom<T>(p: seq<T>, key: T -> string, x: T, i: nat)
    requires i < |Put(p, key, x)|
    ensures Put(p, key, x)[i] == x || (i < |p| && Put(p, key, x)[i] == p[i])
  {
  }

  lemma {:induction false} PutAllFrom<T>(s: seq<T>, key: T -> string, xs: seq<T>, i: nat)
    requires i < |PutAll(s, key, xs)|
    ensures PutAll(s, key, xs)[i] in s || PutAll(s, key, xs)[i] in xs
  {
    if |xs| > 0 {
      var n := |xs| - 1;
      var p := PutAll(s, key, xs[..n]);
      LastSplit(xs);
      PutFrom(p, key, xs[n], i);
      if Put(p, key, xs[n])[i] != xs[n] {
        PutAllFrom(s, key, xs[..n], i);
        assert p[i] in s || p[i] in xs[..n];
      }
    }
  }

  /** After the writes, an entry whose key was written is the LAST element written with that key. */
  lemma {:induction false} PutAllLastWins<T>(s: seq<T>, key: T -> string, xs: seq<T>, j: nat)
    requires j < |xs| && forall k :: j < k < |xs| ==> key(xs[k]) != key(xs[j])
    ensures xs[j] in PutAll(s, key, xs)
  {
    var n := |xs| - 1;
    var p := PutAll(s, key, xs[..n]);
    if j < n {
      PutAllLastWins(s, key, xs[..n], j);
      var i :| 0 <= i < |p| && p[i] == xs[j];
      PutKeeps(p, key, xs[n], i);
    } else {
      PutContains(p, key, xs[n]);
    }
  }

  lemma PutKeeps<T>(p: seq<T>, key: T -> string, x: T, i: nat)
    requires i < |p| && key(p[i]) != key(x)
    ensures i < |Put(p, key, x)| && Put(p, key, x)[i] == p[i]
  {
  }

  lemma PutContains<T>(p: seq<T>, key: T -> string, x: T)
    ensures x in Put(p, key, x)
  {
    match IndexOfKey(p, key, key(x)) {
      case Some(i) => assert Put(p, key, x)[i] == x;
      case None => assert Put(p, key, x)[|p|] == x;
    }
  }

  /** Two rounds of writes into an empty map: one entry per key, every key of either round, each entry from one of them. */
  lemma PutAllTwice<T>(a: seq<T>, b: seq<T>, key: T -> string, i: nat)
    requires i < |PutAll(PutAll([], key, a), key, b)|
    ensures var r := PutAll(PutAll([], key, a), key, b);
      && DistinctKeys(r, key)
      && KeysOf(r, key) == KeysOf(a, key) + KeysOf(b, key)
      && (r[i] in a || r[i] in b)
  {
    var base := PutAll([], key, a);
    var r := PutAll(base, key, b);
    PutAllDistinct([], key, a);
    PutAllDistinct(base, key, b);
    PutAllKeys([], key, a);
    PutAllKeys(base, key, b);
    PutAllFrom(base, key, b, i);
    if r[i] in base {
      var m :| 0 <= m < |base| && base[m] == r[i];
      PutAllFrom([], key, a, m);
    }
  }

  /** An entry of the result whose key some write used is one of the writes. */
  lemma {:induction false} PutAllOverrides<T>(s: seq<T>, key: T -> string, xs: seq<T>, i: nat)
    requires DistinctKeys(s, key)
    requires i < |PutAll(s, key, xs)| && key(PutAll(s, key, xs)[i]) in KeysOf(xs, key)
    ensures PutAll(s, key, xs)[i] in xs
  {
    var n := |xs| - 1;
    var p := PutAll(s, key, xs[..n]);
    var r := Put(p, key, xs[n]);
    PutAllDistinct(s, key, xs[..n]);
    PutProperties(p, key, xs[n]);
    LastSplit(xs);
    KeysOfSnoc(xs[..n], key, xs[n]);
    match IndexOfKey(p, key, key(xs[n])) {
      case Some(m) =>
        if i != m {
          assert r[i] == p[i] && key(p[i]) != key(p[m]);
          PutAllOverrides(s, key, xs[..n], i);
        }
      case None =>
        if i < |p| {
          assert r[i] == p[i] && key(p[i]) in KeysOf(p, key);
          PutAllOverrides(s, key, xs[..n], i);
        }
    }
  }

  lemma PutAllSnoc<T>(s: seq<T>, key: T -> string, xs: seq<T>, i: nat)
    requires i < |xs|
    ensures PutAll(s, key, xs[..i + 1]) == Put(PutAll(s, key, xs[..i]), key, xs[i])
  {
    assert xs[..i + 1][..i] == xs[..i];
  }

  /** The sequences one after another. */
  function Flatten<T>(bs: seq<seq<T>>): seq<T>
  {
    if |bs| == 0 then [] else bs[0] + Flatten(bs[1..])
  }

  // ---------------------------------------------------------------------
  // Filter.

  function Filter<T>(s: seq<T>, p: T -> bool): (r: seq<T>)
    ensures |r| <= |s|
    ensures forall i :: 0 <= i < |r| ==> p(r[i]) && r[i] in s
    ensures forall i :: 0 <= i < |s| && p(s[i]) ==> s[i] in r
  {
    if |s| == 0 then []
    else Filter(s[..|s| - 1], p) + (if p(s[|s| - 1]) then [s[|s| - 1]] else [])
  }

  lemma {:induction false} FilterAll<T>(s: seq<T>, p: T -> bool)
    requires forall i :: 0 <= i < |s| ==> p(s[i])
    ensures Filter(s, p) == s
  {
    if |s| > 0 {
      FilterAll(s[..|s| - 1], p);
      LastSplit(s);
    }
  }

  lemma FilterAppendOne<T>(s: seq<T>, p: T -> bool, x: T)
    ensures Filter(s + [x], p) == Filter(s, p) + (if p(x) then [x] else [])
  {
    assert (s + [x])[..|s|] == s;
  }

  /** Filtering twice by the same test is filtering once. */
  lemma FilterIdempotent<T>(s: seq<T>, p: T -> bool)
    ensures Filter(Filter(s, p), p) == Filter(s, p)
  {
    var f := Filter(s, p);
    assert forall i :: 0 <= i < |f| ==> p(f[i]);
    FilterAll(f, p);
  }

  lemma MultisetLast<T>(s: seq<T>)
    requires |s| > 0
    ensures multiset(s) == multiset(s[..|s| - 1]) + multiset{s[|s| - 1]}
  {
    LastSplit(s);
  }

  lemma MultisetSplit<T>(s: seq<T>, n: nat)
    requires n <= |s|
    ensures multiset(s) == multiset(s[..n]) + multiset(s[n..])
  {
    assert s == s[..n] + s[n..];
  }

  /** Splitting by a predicate and its complement is a partition: nothing lost, nothing doubled. */
  lemma {:induction false} FilterPartition<T>(s: seq<T>, p: T -> bool, q: T -> bool)
    requires forall i :: 0 <= i < |s| ==> q(s[i]) == !p(s[i])
    ensures multiset(Filter(s, p)) + multiset(Filter(s, q)) == multiset(s)
  {
    if |s| > 0 {
      var n := |s| - 1;
      var t := s[..n];
      FilterPartition(t, p, q);
      var fp, fq := Filter(t, p), Filter(t, q);
      var ep: seq<T> := if p(s[n]) then [s[n]] else [];
      var eq: seq<T> := if q(s[n]) then [s[n]] else [];
      assert Filter(s, p) == fp + ep;
      assert Filter(s, q) == fq + eq;
      assert multiset(ep) + multiset(eq) == multiset{s[n]};
      MultisetLast(s);
    }
  }

  lemma {:induction false} FilterKeepsDistinct<T>(s: seq<T>, key: T -> string, p: T -> bool)
    requires DistinctKeys(s, key)
    ensures DistinctKeys(Filter(s, p), key)
  {
    if |s| > 0 {
      var q := s[..|s| - 1];
      assert DistinctKeys(q, key);
      FilterKeepsDistinct(q, key, p);
      if p(s[|s| - 1]) {
        var f := Filter(q, p);
        forall i | 0 <= i < |f| ensures key(f[i]) != key(s[|s| - 1]) {
          assert f[i] in q;
          var j :| 0 <= j < |q| && q[j] == f[i];
          assert s[j] == q[j];
        }
      }
    }
  }

  /** Several independent filters in a row are one filter by their conjunction. */
  lemma {:induction false} FilterFilter<T>(s: seq<T>, p: T -> bool, q: T -> bool)
    ensures Filter(Filter(s, p), q) == Filter(s, x => p(x) && q(x))
  {
    var pq := x => p(x) && q(x);
    if |s| > 0 {
      var n := |s| - 1;
      FilterFilter(s[..n], p, q);
      var f := Filter(s[..n], p);
      assert Filter(s, pq) == Filter(s[..n], pq) + (if pq(s[n]) then [s[n]] else []);
      if p(s[n]) {
        var g := f + [s[n]];
        assert g[..|g| - 1] == f;
        assert Filter(g, q) == Filter(f, q) + (if q(s[n]) then [s[n]] else []);
      } else {
        assert Filter(s, p) == f;
      }
    }
  }

  // ---------------------------------------------------------------------
  // Stable sort with a comparator `le(a, b)`: "a may come before b".

  predicate SortedBy<T>(s: seq<T>, le: (T, T) -> bool)
  {
    forall i, j :: 0 <= i < j < |s| ==> le(s[i], s[j])
  }

  ghost predicate TotalPreorder<T(!new)>(le: (T, T) -> bool)
  {
    && (forall a, b :: le(a, b) || le(b, a))
    && (forall a, b, c :: le(a, b) && le(b, c) ==> le(a, c))
  }

  /** Insert `x` in front of the first element it may precede. */
  function Insert<T>(x: T, s: seq<T>, le: (T, T) -> bool): (r: seq<T>)
    ensures multiset(r) == multiset(s) + multiset{x}
    ensures |r| == |s| + 1
  {
    if |s| == 0 then [x]
    else if le(x, s[0]) then [x] + s
    else
      assert s == [s[0]] + s[1..];
      [s[0]] + Insert(x, s[1..], le)
  }

  /** Insertion sort; an element inserted in front of its equals keeps the input order of ties. */
  function SortBy<T>(s: seq<T>, le: (T, T) -> bool): (r: seq<T>)
    ensures multiset(r) == multiset(s)
    ensures |r| == |s|
  {
    if |s| == 0 then []
    else
      assert s == [s[0]] + s[1..];
      Insert(s[0], SortBy(s[1..], le), le)
  }

  lemma {:induction false} InsertSorted<T(!new)>(x: T, s: seq<T>, le: (T, T) -> bool)
    requires TotalPreorder(le)
    requires SortedBy(s, le)
    ensures SortedBy(Insert(x, s, le), le)
  {
    if |s| > 0 && !le(x, s[0]) {
      var t := Insert(x, s[1..], le);
      assert SortedBy(s[1..], le);
      InsertSorted(x, s[1..], le);
      assert le(s[0], x);
      forall j | 0 <= j < |t| ensures le(s[0], t[j]) {
        assert t[j] in multiset(s[1..]) + multiset{x};
        if t[j] in multiset(s[1..]) {
          var k :| 0 < k < |s| && s[k] == t[j];
        }
      }
    }
  }

  /** The sort result is ordered by `le` and is a permutation of the input. */
  lemma {:induction false} SortBySorted<T(!new)>(s: seq<T>, le: (T, T) -> bool)
    requires TotalPreorder(le)
    ensures SortedBy(SortBy(s, le), le)
    ensures multiset(SortBy(s, le)) == multiset(s)
  {
    if |s| > 0 {
      SortBySorted(s[1..], le);
      InsertSorted(s[0], SortBy(s[1..], le), le);
    }
  }

  lemma {:induction false} FilterCons<T>(x: T, s: seq<T>, p: T -> bool)
    ensures Filter([x] + s, p) == (if p(x) then [x] else []) + Filter(s, p)
  {
    if |s| == 0 {
      assert [x] + s == [] + [x];
      FilterAppendOne([], p, x);
    } else {
      var front := s[..|s| - 1];
      var last := s[|s| - 1];
      var mine := if p(x) then [x] else [];
      var end := if p(last) then [last] else [];
      assert Filter([x] + s, p) == Filter([x] + front, p) + end by {
        assert ([x] + s)[..|s|] == [x] + front;
        assert ([x] + s)[|s|] == last;
      }
      assert Filter([x] + front, p) == mine + Filter(front, p) by {
        FilterCons(x, front, p);
      }
      assert Filter(s, p) == Filter(front, p) + end;
      assert (mine + Filter(front, p)) + end == mine + (Filter(front, p) + end);
    }
  }

  /**
   * Inserting keeps the order of every class of mutual ties: `x` is never
   * moved past an element it ties with.
   */
  lemma {:induction false} InsertKeepsTies<T(!new)>(x: T, s: seq<T>, le: (T, T) -> bool, tie: T -> bool)
    requires forall a, b :: tie(a) && tie(b) ==> le(a, b)
    ensures Filter(Insert(x, s, le), tie) == (if tie(x) then [x] else []) + Filter(s, tie)
  {
    if |s| == 0 {
      FilterCons(x, [], tie);
    } else if le(x, s[0]) {
      FilterCons(x, s, tie);
    } else {
      InsertKeepsTies(x, s[1..], le, tie);
      ConsKeepsTies(x, s[0], Insert(x, s[1..], le), s[1..], tie);
      assert s == [s[0]] + s[1..];
    }
  }

  /** The step of `InsertKeepsTies`: putting `y` in front of both sides, where `y` does not tie with `x`. */
  lemma ConsKeepsTies<T>(x: T, y: T, rest: seq<T>, s: seq<T>, tie: T -> bool)
    requires tie(x) ==> !tie(y)
    requires Filter(rest, tie) == (if tie(x) then [x] else []) + Filter(s, tie)
    ensures Filter([y] + rest, tie) == (if tie(x) then [x] else []) + Filter([y] + s, tie)
  {
    var mine: seq<T> := if tie(x) then [x] else [];
    var theirs: seq<T> := if tie(y) then [y] else [];
    assert Filter([y] + rest, tie) == theirs + Filter(rest, tie) by {
      FilterCons(y, rest, tie);
    }
    assert Filter([y] + s, tie) == theirs + Filter(s, tie) by {
      FilterCons(y, s, tie);
    }
    SwapEmpty(theirs, mine, Filter(s, tie));
  }

  lemma SwapEmpty<T>(a: seq<T>, b: seq<T>, c: seq<T>)
    requires a == [] || b == []
    ensures a + (b + c) == b + (a + c)
  {
    if a == [] {
      assert a + (b + c) == b + c;
    } else {
      assert a + (b + c) == a + c;
    }
  }

  /** The sort is stable: the elements of a class of mutual ties keep their input order. */
  lemma {:induction false} SortByKeepsTies<T(!new)>(s: seq<T>, le: (T, T) -> bool, tie: T -> bool)
    requires forall a, b :: tie(a) && tie(b) ==> le(a, b)
    ensures Filter(SortBy(s, le), tie) == Filter(s, tie)
  {
    if |s| > 0 {
      SortByKeepsTies(s[1..], le, tie);
      InsertKeepsTies(s[0], SortBy(s[1..], le), le, tie);
      FilterCons(s[0], s[1..], tie);
      assert s == [s[0]] + s[1..];
    }
  }

  // ---------------------------------------------------------------------
  // Lexicographic order on strings, by character code: JavaScript's `<`
  // on strings.

  predicate StrLe(a: string, b: string)
  {
    |a| == 0 || (|b| > 0 && (a[0] < b[0] || (a[0] == b[0] && StrLe(a[1..], b[1..]))))
  }

  lemma {:induction false} StrLeTotal(a: string, b: string)
    ensures StrLe(a, b) || StrLe(b, a)
  {
    if |a| > 0 && |b| > 0 && a[0] == b[0] {
      StrLeTotal(a[1..], b[1..]);
    }
  }

  lemma {:induction false} StrLeTrans(a: string, b: string, c: string)
    requires StrLe(a, b) && StrLe(b, c)
    ensures StrLe(a, c)
  {
    if |a| > 0 && a[0] == b[0] && b[0] == c[0] {
      StrLeTrans(a[1..], b[1..], c[1..]);
    }
  }

  lemma {:induction false} StrLeAntisym(a: string, b: string)
    requires StrLe(a, b) && StrLe(b, a)
    ensures a == b
  {
    if |a| > 0 {
      StrLeAntisym(a[1..], b[1..]);
      assert a == [a[0]] + a[1..] && b == [b[0]] + b[1..];
    }
  }

  /**
   * A collation `(a, b) => a.localeCompare(b) <= 0`. The runtime's locale
   * rules are not fixed here; all that is relied on is that they order
   * any two strings one way or the other, transitively.
   */
  ghost predicate Collation(before: (string, string) -> bool)
  {
    TotalPreorder(before)
  }

  /** Character-code order is one such collation, so the requirement can be met. */
  lemma CodeUnitCollation()
    ensures Collation(StrLe)
  {
    forall a: string, b: string ensures StrLe(a, b) || StrLe(b, a) {
      StrLeTotal(a, b);
    }
    forall a: string, b: string, c: string | StrLe(a, b) && StrLe(b, c) ensures StrLe(a, c) {
      StrLeTrans(a, b, c);
    }
  }

  /** Comparing by a string field is a total preorder, so the sort by it is well defined. */
  lemma ByStringTotal<T(!new)>(key: T -> string)
    ensures TotalPreorder((x: T, y: T) => StrLe(key(x), key(y)))
  {
    forall x: T, y: T ensures StrLe(key(x), key(y)) || StrLe(key(y), key(x)) {
      StrLeTotal(key(x), key(y));
    }
    forall x: T, y: T, z: T | StrLe(key(x), key(y)) && StrLe(key(y), key(z)) ensures StrLe(key(x), key(z)) {
      StrLeTrans(key(x), key(y), key(z));
    }
  }
}
