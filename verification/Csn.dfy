/**
 Combined sequence numbers: a 48-bit counter kept as a 16-bit overflow number and a
 32-bit sequence number.
 */
module CombinedSequence {
  import opened Basics

  datatype Csn = Csn(overflow: U16, sequence: U32) {

    /** The 48-bit combined sequence number. */
    function Number(): nat {
      overflow * 0x1_0000_0000 + sequence
    }

    /** The checked increment: sequence first, then overflow, failing when both are exhausted. */
    function Increment(): Option<Csn> {
      if sequence + 1 < 0x1_0000_0000 then Some(Csn(overflow, sequence + 1))
      else if overflow + 1 < 0x1_0000 then Some(Csn(overflow + 1, 0))
      else None
    }

    /** The order used when validating incoming nonces. */
    predicate Less(that: Csn) {
      Number() < that.Number()
    }
  }

  const CSN_LIMIT: nat := 0x1_0000_0000_0000

  /** `k` checked increments in a row; `None` once one of them fails. */
  function IncrementTimes(c: Csn, k: nat): Option<Csn> {
    if k == 0 then Some(c)
    else
      var p := IncrementTimes(c, k - 1);
      if p.None? then None else p.value.Increment()
  }

  /** Incrementing is +1 on the 48-bit number and fails exactly at 2^48 - 1. */
  lemma IncrementIsSuccessor(c: Csn)
    ensures c.Number() < CSN_LIMIT
    ensures c.Increment().Some? <==> c.Number() + 1 < CSN_LIMIT
    ensures c.Increment().Some? ==> c.Increment().value.Number() == c.Number() + 1
  {
  }

  /** `k` increments from a start give start + k, or fail exactly when that leaves 48 bits. */
  lemma {:induction false} IncrementTimesAdds(c: Csn, k: nat)
    ensures IncrementTimes(c, k).Some? <==> c.Number() + k < CSN_LIMIT
    ensures IncrementTimes(c, k).Some? ==> IncrementTimes(c, k).value.Number() == c.Number() + k
  {
    if k == 0 {
      IncrementIsSuccessor(c);
    } else {
      IncrementTimesAdds(c, k - 1);
    }
  }

  /** Comparing combined numbers is comparing (overflow, sequence) lexicographically. */
  lemma LessIsLexicographic(a: Csn, b: Csn)
    ensures a.Less(b) <==> a.overflow < b.overflow || (a.overflow == b.overflow && a.sequence < b.sequence)
    ensures a.Number() == b.Number() <==> a == b
  {
  }

  /** The mutable counter owned by a peer context. */
  class Counter {
    var overflow: U16
    var sequence: U32

    ghost function Value(): Csn
      reads this
    {
      Csn(overflow, sequence)
    }

    constructor (overflow: U16, sequence: U32)
      ensures Value() == Csn(overflow, sequence)
    {
      this.overflow, this.sequence := overflow, sequence;
    }

    /** Overwrites the counter with its successor and returns a snapshot of it. */
    method Increment() returns (snapshot: Option<Csn>)
      modifies this
      ensures old(Value()).Number() + 1 < CSN_LIMIT ==>
                snapshot == Some(Value()) && Value().Number() == old(Value()).Number() + 1
      ensures old(Value()).Number() + 1 >= CSN_LIMIT ==> snapshot == None && Value() == old(Value())
    {
      if sequence + 1 < 0x1_0000_0000 {
        sequence := sequence + 1;
      } else if overflow + 1 < 0x1_0000 {
        overflow, sequence := overflow + 1, 0;
      } else {
        return None;
      }
      snapshot := Some(Csn(overflow, sequence));
    }
  }
}
