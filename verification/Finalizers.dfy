/** pkg/util/finalizer: the finalizer list of an object, read and rewritten
    through a string set whose listing is sorted and free of duplicates. */
module Finalizers {

  /** Go's order on strings. */
  predicate Less(a: string, b: string) {
    if b == "" then false
    else if a == "" then true
    else a[0] < b[0] || (a[0] == b[0] && Less(a[1..], b[1..]))
  }

  predicate Sorted(l: seq<string>) {
    forall i, j :: 0 <= i < j < |l| ==> Less(l[i], l[j])
  }

  lemma {:induction false} LessTotal(a: string, b: string)
    ensures a == b || Less(a, b) || Less(b, a)
  {
    if a != "" && b != "" && a[0] == b[0] {
      LessTotal(a[1..], b[1..]);
      assert a == [a[0]] + a[1..] && b == [b[0]] + b[1..];
    }
  }

  lemma {:induction false} LessTransitive(a: string, b: string, c: string)
    requires Less(a, b) && Less(b, c)
    ensures Less(a, c)
  {
    if a != "" && a[0] == b[0] == c[0] {
      LessTransitive(a[1..], b[1..], c[1..]);
    }
  }

  lemma {:induction false} LessIrreflexive(a: string)
    ensures !Less(a, a)
  {
    if a != "" { LessIrreflexive(a[1..]); }
  }

  /** One step of building the sorted listing of a set. */
  function Insert(l: seq<string>, x: string): (r: seq<string>)
    ensures forall f :: f in r <==> f in l || f == x
  {
    if l == [] then [x]
    else if l[0] == x then l
    else if Less(x, l[0]) then [x] + l
    else
      assert l == [l[0]] + l[1..];
      [l[0]] + Insert(l[1..], x)
  }

  lemma {:induction false} InsertSorted(l: seq<string>, x: string)
    requires Sorted(l)
    ensures Sorted(Insert(l, x))
  {
    if l != [] && l[0] != x {
      var tail := l[1..];
      if Less(x, l[0]) {
        forall j | 0 <= j < |l| ensures Less(x, l[j]) {
          if j > 0 { LessTransitive(x, l[0], l[j]); }
        }
      } else {
        InsertSorted(tail, x);
        LessTotal(l[0], x);
        var r := Insert(tail, x);
        forall j | 0 <= j < |r| ensures Less(l[0], r[j]) {
          assert r[j] in r;
          if r[j] in tail {
            var k :| 0 <= k < |tail| && tail[k] == r[j];
            assert l[k + 1] == tail[k];
          }
        }
      }
    }
  }

  /** sets.NewString(list...).List(). */
  function Normal(l: seq<string>): (r: seq<string>)
    ensures forall f :: f in r <==> f in l
  {
    if l == [] then []
    else
      var last := |l| - 1;
      assert l == l[..last] + [l[last]];
      Insert(Normal(l[..last]), l[last])
  }

  lemma {:induction false} NormalSorted(l: seq<string>)
    ensures Sorted(Normal(l))
  {
    if l != [] {
      NormalSorted(l[..|l| - 1]);
      InsertSorted(Normal(l[..|l| - 1]), l[|l| - 1]);
    }
  }

  function Without(l: seq<string>, x: string): (r: seq<string>)
    ensures forall f :: f in r <==> f in l && f != x
    ensures |r| <= |l|
  {
    if l == [] then []
    else
      assert l == [l[0]] + l[1..];
      if l[0] == x then Without(l[1..], x) else [l[0]] + Without(l[1..], x)
  }

  lemma {:induction false} WithoutSorted(l: seq<string>, x: string)
    requires Sorted(l)
    ensures Sorted(Without(l, x))
  {
    if l != [] {
      WithoutSorted(l[1..], x);
      var r := Without(l[1..], x);
      if l[0] != x {
        forall j | 0 <= j < |r| ensures Less(l[0], r[j]) {
          assert r[j] in r;
          var k :| 0 <= k < |l[1..]| && l[1..][k] == r[j];
          assert l[k + 1] == r[j];
        }
      }
    }
  }

  /** The list Add writes back. */
  function Added(l: seq<string>, key: string): (r: seq<string>)
    ensures forall f :: f in r <==> f in l || f == key
  {
    Insert(Normal(l), key)
  }

  /** The list Remove writes back. */
  function Removed(l: seq<string>, key: string): (r: seq<string>)
    ensures forall f :: f in r <==> f in l && f != key
  {
    Without(Normal(l), key)
  }

  /** A sorted listing is determined by its elements: there is one listing per set. */
  lemma {:induction false} SortedUnique(a: seq<string>, b: seq<string>)
    requires Sorted(a) && Sorted(b)
    requires forall f :: f in a <==> f in b
    ensures a == b
  {
    InhabitedTogether(a, b);
    InhabitedTogether(b, a);
    if a != [] {
      SameHead(a, b);
      forall f ensures f in a[1..] <==> f in b[1..] {
        TailMembers(a, f);
        TailMembers(b, f);
      }
      SortedUnique(a[1..], b[1..]);
      assert a == [a[0]] + a[1..] && b == [b[0]] + b[1..];
    }
  }

  lemma InhabitedTogether(a: seq<string>, b: seq<string>)
    requires forall f :: f in a ==> f in b
    ensures a != [] ==> b != []
  {
    if a != [] { assert a[0] in b; }
  }

  lemma SameHead(a: seq<string>, b: seq<string>)
    requires Sorted(a) && Sorted(b) && a != [] && b != []
    requires forall f :: f in a <==> f in b
    ensures a[0] == b[0]
  {
    assert a[0] in b && b[0] in a;
    var i :| 0 <= i < |b| && b[i] == a[0];
    var j :| 0 <= j < |a| && a[j] == b[0];
    if i > 0 && j > 0 {
      LessTransitive(a[0], a[j], b[i]);
      LessIrreflexive(a[0]);
    }
  }

  lemma TailMembers(l: seq<string>, f: string)
    requires Sorted(l) && l != []
    ensures f in l[1..] <==> f in l && f != l[0]
  {
    assert l == [l[0]] + l[1..];
    if l[0] in l[1..] {
      var k :| 0 <= k < |l[1..]| && l[1..][k] == l[0];
      assert l[k + 1] == l[0];
      LessIrreflexive(l[0]);
    }
  }

  /** What Add and Remove write is the one sorted listing of the set union and the set difference. */
  lemma WritesRefineSets(l: seq<string>, key: string, r: seq<string>)
    requires Sorted(r)
    ensures r == Added(l, key) <==> (set f | f in r) == (set f | f in l) + {key}
    ensures r == Removed(l, key) <==> (set f | f in r) == (set f | f in l) - {key}
  {
    NormalSorted(l);
    InsertSorted(Normal(l), key);
    WithoutSorted(Normal(l), key);
    var rs, ls := set f | f in r, set f | f in l;
    if rs == ls + {key} {
      forall f ensures f in r <==> f in Added(l, key) { assert f in r <==> f in rs; assert f in l <==> f in ls; }
      SortedUnique(r, Added(l, key));
    }
    if rs == ls - {key} {
      forall f ensures f in r <==> f in Removed(l, key) { assert f in r <==> f in rs; assert f in l <==> f in ls; }
      SortedUnique(r, Removed(l, key));
    }
  }

  /** Both writes are idempotent, and Remove takes back an Add of an absent key up to order and duplicates. */
  lemma WriteLaws(l: seq<string>, key: string)
    ensures Added(Added(l, key), key) == Added(l, key)
    ensures Removed(Removed(l, key), key) == Removed(l, key)
    ensures key !in l ==> Removed(Added(l, key), key) == Normal(l)
    ensures key in l ==> Added(Removed(l, key), key) == Normal(l)
  {
    NormalSorted(l);
    var a, d := Added(l, key), Removed(l, key);
    InsertSorted(Normal(l), key);
    WithoutSorted(Normal(l), key);
    NormalSorted(a);
    InsertSorted(Normal(a), key);
    WithoutSorted(Normal(a), key);
    NormalSorted(d);
    InsertSorted(Normal(d), key);
    WithoutSorted(Normal(d), key);
    SortedUnique(Added(a, key), a);
    SortedUnique(Removed(d, key), d);
    if key in l { SortedUnique(Added(d, key), Normal(l)); } else { SortedUnique(Removed(a, key), Normal(l)); }
  }

  /** The read-only loop of Contains. */
  method Contains(list: seq<string>, s: string) returns (found: bool)
    ensures found <==> s in list
  {
    for i := 0 to |list|
      invariant s !in list[..i]
    {
      if list[i] == s { return true; }
    }
    return false;
  }

  /** An object whose finalizer list is rewritten in place. */
  class Finalized {
    var finalizers: seq<string>
    var deletionRequested: bool

    constructor (initial: seq<string>)
      ensures finalizers == initial && !deletionRequested
    {
      finalizers := initial;
      deletionRequested := false;
    }

    method Add(key: string)
      modifies this`finalizers
      ensures finalizers == Added(old(finalizers), key) && Sorted(finalizers)
    {
      var listing := [];
      for i := 0 to |finalizers|
        invariant listing == Normal(finalizers[..i])
      {
        assert finalizers[..i + 1][..i] == finalizers[..i];
        listing := Insert(listing, finalizers[i]);
      }
      assert finalizers[..|finalizers|] == finalizers;
      NormalSorted(finalizers);
      InsertSorted(listing, key);
      finalizers := Insert(listing, key);
    }

    method Remove(key: string)
      modifies this`finalizers
      ensures finalizers == Removed(old(finalizers), key) && Sorted(finalizers)
    {
      var listing := [];
      for i := 0 to |finalizers|
        invariant listing == Normal(finalizers[..i])
      {
        assert finalizers[..i + 1][..i] == finalizers[..i];
        listing := Insert(listing, finalizers[i]);
      }
      assert finalizers[..|finalizers|] == finalizers;
      NormalSorted(finalizers);
      WithoutSorted(listing, key);
      finalizers := Without(listing, key);
    }

    method HasFinalizer(key: string) returns (has: bool)
      ensures has <==> key in finalizers
    {
      has := Contains(finalizers, key);
    }
  }
}
