/** The 64-bit timebase of a 32-bit PowerPC, read in two halves. */
module Timebase {
  const HALF: nat := 0x1_0000_0000
  const WHOLE: nat := 0x1_0000_0000_0000_0000

  /** A timebase: its value at each instant, which never falls and never wraps. */
  ghost predicate IsTimebase(tb: nat -> nat) {
    && (forall t: nat :: tb(t) < WHOLE)
    && (forall t: nat, u: nat | t <= u :: NotLater(tb, t, u))
  }

  predicate NotLater(tb: nat -> nat, t: nat, u: nat) {
    tb(t) <= tb(u)
  }

  /** mftbu and mftb. */
  function Upper(v: nat): nat { v / HALF }

  function Lower(v: nat): nat { v % HALF }

  /** If the upper halves around a lower read agree, they are the upper half at that read. */
  lemma AgreedUpper(tb: nat -> nat, high0: nat, low: nat, high1: nat)
    requires IsTimebase(tb) && high0 < low < high1
    requires Upper(tb(high0)) == Upper(tb(high1))
    ensures Upper(tb(high0)) * HALF + Lower(tb(low)) == tb(low)
  {
    assert NotLater(tb, high0, low) && NotLater(tb, low, high1);
  }

  /** The instants of the three reads of each attempt. */
  datatype Reads = Reads(high0: nat, low: nat, high1: nat)

  type Schedule = nat -> Reads

  /** The reads of an attempt follow each other, and the attempts too. */
  ghost predicate IsSchedule(when: Schedule) {
    forall i: nat :: InOrder(when, i)
  }

  predicate InOrder(when: Schedule, i: nat) {
    when(i).high0 < when(i).low < when(i).high1 < when(i + 1).high0
  }

  /** The two upper reads of attempt i agree. */
  predicate Agrees(tb: nat -> nat, when: Schedule, i: nat) {
    Upper(tb(when(i).high0)) == Upper(tb(when(i).high1))
  }

  lemma UpperMonotone(v: nat, w: nat)
    requires v <= w < WHOLE
    ensures Upper(v) <= Upper(w) < HALF
  {
  }

  /** Two attempts that span less than the lower half do not both see the upper half change. */
  lemma OneOfTwoAgrees(tb: nat -> nat, when: Schedule, i: nat)
    requires IsTimebase(tb) && IsSchedule(when)
    requires tb(when(i + 1).high1) - tb(when(i).high0) < HALF
    ensures Agrees(tb, when, i) || Agrees(tb, when, i + 1)
  {
    assert InOrder(when, i) && InOrder(when, i + 1);
    assert NotLater(tb, when(i).high0, when(i).high1);
    assert NotLater(tb, when(i).high1, when(i + 1).high0);
    assert NotLater(tb, when(i + 1).high0, when(i + 1).high1);
  }

  /** The upper half never falls from one attempt to the next. */
  lemma UppersRise(tb: nat -> nat, when: Schedule, i: nat)
    requires IsTimebase(tb) && IsSchedule(when)
    ensures Upper(tb(when(i).high1)) <= Upper(tb(when(i + 1).high0)) <= Upper(tb(when(i + 1).high1)) < HALF
  {
    assert InOrder(when, i) && InOrder(when, i + 1);
    assert NotLater(tb, when(i).high1, when(i + 1).high0);
    assert NotLater(tb, when(i + 1).high0, when(i + 1).high1);
    UpperMonotone(tb(when(i).high1), tb(when(i + 1).high0));
    UpperMonotone(tb(when(i + 1).high0), tb(when(i + 1).high1));
  }

  /** The values that the three reads of attempt i give. */
  predicate Seen(tb: nat -> nat, when: Schedule, i: nat, tbu0: int, tbl: int, tbu1: int) {
    tbu0 == Upper(tb(when(i).high0)) && tbl == Lower(tb(when(i).low)) && tbu1 == Upper(tb(when(i).high1))
  }

  /** The body of the loop; the upper half never falls from one attempt to the next. */
  method Attempt(tb: nat -> nat, when: Schedule, i: nat) returns (tbu0: nat, tbl: nat, tbu1: nat)
    requires IsTimebase(tb) && IsSchedule(when)
    ensures Seen(tb, when, i, tbu0, tbl, tbu1) && tbu1 < HALF
    ensures Agrees(tb, when, i) <==> tbu0 == tbu1
    ensures i > 0 ==> Upper(tb(when(i - 1).high1)) <= tbu0 <= tbu1
  {
    tbu0 := Upper(tb(when(i).high0));
    tbl := Lower(tb(when(i).low));
    tbu1 := Upper(tb(when(i).high1));
    UpperMonotone(tb(when(i).high1), tb(when(i).high1));
    if i > 0 {
      UppersRise(tb, when, i - 1);
    }
  }

  lemma Accepted(tb: nat -> nat, when: Schedule, i: nat)
    requires IsTimebase(tb) && IsSchedule(when) && Agrees(tb, when, i)
    ensures Upper(tb(when(i).high0)) * HALF + Lower(tb(when(i).low)) == tb(when(i).low)
  {
    assert InOrder(when, i);
    AgreedUpper(tb, when(i).high0, when(i).low, when(i).high1);
  }

  lemma AtMostTwo(tb: nat -> nat, when: Schedule, last: nat)
    requires IsTimebase(tb) && IsSchedule(when)
    requires forall i | 0 <= i < last :: !Agrees(tb, when, i)
    ensures tb(when(1).high1) - tb(when(0).high0) < HALF ==> last <= 1
  {
    if tb(when(1).high1) - tb(when(0).high0) < HALF {
      OneOfTwoAgrees(tb, when, 0);
    }
  }

  /** read_timebase: the value returned is the timebase at the low read of the first
      attempt whose upper reads agree, which is one of the first two when these span
      less than 2^32 ticks. */
  method ReadTimebase(tb: nat -> nat, when: Schedule) returns (ticks: nat, last: nat)
    requires IsTimebase(tb) && IsSchedule(when)
    ensures ticks == tb(when(last).low)
    ensures Agrees(tb, when, last) && forall i | 0 <= i < last :: !Agrees(tb, when, i)
    ensures tb(when(1).high1) - tb(when(0).high0) < HALF ==> last <= 1
  {
    last := 0;
    var tbu0, tbl, tbu1 := Attempt(tb, when, 0);
    while tbu0 != tbu1
      invariant Seen(tb, when, last, tbu0, tbl, tbu1) && 0 <= tbu1 < HALF
      invariant Agrees(tb, when, last) <==> tbu0 == tbu1
      invariant forall i | 0 <= i < last :: !Agrees(tb, when, i)
      decreases HALF - tbu1, tbu0 != tbu1
    {
      last := last + 1;
      tbu0, tbl, tbu1 := Attempt(tb, when, last);
    }
    Accepted(tb, when, last);
    AtMostTwo(tb, when, last);
    ticks := tbu0 * HALF + tbl;
  }
}
