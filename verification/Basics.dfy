/** Shared vocabulary: optional values, machine-width integers and listings of finite sets. */
module Basics {

  datatype Option<+T> = None | Some(value: T)

  type Byte = x: int | 0 <= x < 0x100
  type U16 = x: int | 0 <= x < 0x1_0000
  type U32 = x: int | 0 <= x < 0x1_0000_0000

  /** One byte of routing information: 0x00 server, 0x01 initiator, 0x02..0xff responders. */
  type Address = Byte

  /** The elements of `q` are pairwise distinct. */
  ghost predicate NoDup<T>(q: seq<T>) {
    forall i, j :: 0 <= i < j < |q| ==> q[i] != q[j]
  }

  /** `q` lists every element of `s` exactly once. */
  ghost predicate Lists<T>(q: seq<T>, s: set<T>) {
    && NoDup(q)
    && (forall x :: x in q ==> x in s)
    && (forall x :: x in s ==> x in q)
  }

  ghost function SomeListing(s: set<Address>): (q: seq<Address>)
    ensures Lists(q, s)
  {
    if s == {} then [] else var a :| a in s; [a] + SomeListing(s - {a})
  }

  /** The order in which a hash set or hash map happens to be iterated. */
  type IterOrder = f: set<Address> -> seq<Address> | forall s :: Lists(f(s), s) ghost witness (s => SomeListing(s))

  /** A listing has as many entries as the set it lists. */
  lemma {:induction false} ListingLength<T>(q: seq<T>, s: set<T>)
    requires Lists(q, s)
    ensures |q| == |s|
    decreases |q|
  {
    if q == [] {
      assert s == {};
    } else {
      var x := q[|q| - 1];
      var p := q[..|q| - 1];
      assert q == p + [x];
      assert x !in p;
      assert Lists(p, s - {x}) by {
        forall y | y in s - {x} ensures y in p { assert y in q; }
      }
      ListingLength(p, s - {x});
    }
  }

  /** Pigeonhole: a sequence is duplicate-free exactly when it has as many entries as distinct elements. */
  lemma {:induction false} NoDupIffFullSize<T>(q: seq<T>)
    ensures |set x | x in q| <= |q|
    ensures NoDup(q) <==> |set x | x in q| == |q|
  {
    if q != [] {
      var x := q[|q| - 1];
      var p := q[..|q| - 1];
      assert q == p + [x];
      NoDupIffFullSize(p);
      var sp, sq := set y | y in p, set y | y in q;
      if x in p {
        assert sq == sp;
        var k :| 0 <= k < |p| && p[k] == x;
        assert q[k] == q[|q| - 1];
      } else {
        assert sq == sp + {x};
        if NoDup(p) {
          assert NoDup(q);
        } else {
          assert !NoDup(q) by {
            var i, j :| 0 <= i < j < |p| && p[i] == p[j];
            assert q[i] == q[j];
          }
        }
      }
    } else {
      assert (set x | x in q) == {};
    }
  }

  /** A set of integers from lo up to but excluding hi has at most hi - lo elements. */
  lemma {:induction false} BoundedSize(s: set<int>, lo: int, hi: int)
    requires lo <= hi
    requires forall a :: a in s ==> lo <= a < hi
    ensures |s| <= hi - lo
    decreases hi - lo
  {
    if lo == hi {
      assert s == {};
    } else {
      BoundedSize(s - {hi - 1}, lo, hi - 1);
    }
  }
}
