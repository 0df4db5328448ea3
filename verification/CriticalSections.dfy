/** The critical sections of the mailbox functions, updating `struct arg` in place. A
    method is the code a thread runs while it owns the mutex; `ok` is false when one of
    its assertions fails. */
module Mailboxes {
  import opened Sync

  /** What a waiting thread finds after i waits. */
  function Found(start: Mailbox, wakes: nat -> Mailbox, i: nat): Mailbox {
    if i == 0 then start else wakes(i - 1)
  }

  class Arg {
    var owner: Option<nat>
    var s: Status
    var work: Option<nat>
    var run: bool

    function Box(): Mailbox
      reads this
    {
      Mailbox(owner, s, work, run)
    }

    constructor ()
      ensures Box() == Mailbox(None, IDLE, None, true)
    {
      owner, s, work, run := None, IDLE, None, true;
    }

    /** queue_work. */
    method QueueWork(w: nat) returns (ok: bool)
      modifies this
      ensures ok == CanPut(old(Box()))
      ensures Box() == if ok then PutWork(old(Box()), w) else old(Box())
    {
      if work != None {
        return false;
      }
      if s != IDLE {
        return false;
      }
      work := Some(w);
      s := QUEUED;
      return true;
    }

    /** wait_until_done, from a test of its loop condition to the next wait or to the end. */
    method TryCollect() returns (done: bool, w: Option<nat>)
      modifies this
      ensures done == (old(s) == DONE)
      ensures Box() == if done then Collect(old(Box())) else old(Box())
      ensures w == if done then old(work) else None
    {
      if s != DONE {
        return false, None;
      }
      w := work;
      work := None;
      s := IDLE;
      return true, w;
    }

    /** wait_for_work, from a test of its loop condition to the next wait or to the end. */
    method TryTake() returns (taken: bool, w: Option<nat>)
      modifies this
      ensures taken == (old(s) == QUEUED)
      ensures Box() == if taken then TakeWork(old(Box())) else old(Box())
      ensures w == if taken then old(work) else None
    {
      if s != QUEUED {
        return false, None;
      }
      w := work;
      work := None;
      s := WORKING;
      return true, w;
    }

    /** pthread_cond_wait: when it returns, the mailbox is as the other threads have left it. */
    method Resume(found: Mailbox)
      modifies this
      ensures Box() == found
    {
      owner, s, work, run := found.owner, found.s, found.work, found.run;
    }

    /** wait_for_work: `wakes(i)` is what the thread finds after its i-th wait, and wake-up
        `last` finds work, if none is there at the start. It takes the first work there is,
        after k waits, and fails its assertion exactly in a mailbox that is WORKING. */
    method WaitForWork(wakes: nat -> Mailbox, ghost last: nat) returns (ok: bool, w: Option<nat>, ghost k: nat)
      requires s == QUEUED || s == WORKING || wakes(last).s == QUEUED
      modifies this
      ensures ok == (old(s) != WORKING)
      ensures !ok ==> Box() == old(Box())
      ensures ok ==>
                && Found(old(Box()), wakes, k).s == QUEUED
                && (forall i | 0 <= i < k :: Found(old(Box()), wakes, i).s != QUEUED)
                && w == Found(old(Box()), wakes, k).work
                && Box() == TakeWork(Found(old(Box()), wakes, k))
    {
      k := 0;
      if s == WORKING {
        return false, None, 0;
      }
      var taken;
      var i := 0;
      taken, w := TryTake();
      while !taken
        invariant k == i
        invariant forall m | 0 <= m < k :: Found(old(Box()), wakes, m).s != QUEUED
        invariant taken == (Found(old(Box()), wakes, k).s == QUEUED)
        invariant if taken then w == Found(old(Box()), wakes, k).work && Box() == TakeWork(Found(old(Box()), wakes, k))
                  else s != QUEUED && k <= last + 1
        decreases last + 1 - k, !taken
      {
        Resume(wakes(i));
        i := i + 1;
        k := k + 1;
        taken, w := TryTake();
      }
      ok := true;
    }

    /** wait_until_done, likewise. */
    method WaitUntilDone(wakes: nat -> Mailbox, ghost last: nat) returns (w: Option<nat>, ghost k: nat)
      requires s == DONE || wakes(last).s == DONE
      modifies this
      ensures Found(old(Box()), wakes, k).s == DONE
      ensures forall i | 0 <= i < k :: Found(old(Box()), wakes, i).s != DONE
      ensures w == Found(old(Box()), wakes, k).work
      ensures Box() == Collect(Found(old(Box()), wakes, k))
    {
      k := 0;
      var done;
      var i := 0;
      done, w := TryCollect();
      while !done
        invariant k == i
        invariant forall m | 0 <= m < k :: Found(old(Box()), wakes, m).s != DONE
        invariant done == (Found(old(Box()), wakes, k).s == DONE)
        invariant if done then w == Found(old(Box()), wakes, k).work && Box() == Collect(Found(old(Box()), wakes, k))
                  else s != DONE && k <= last + 1
        decreases last + 1 - k, !done
      {
        Resume(wakes(i));
        i := i + 1;
        k := k + 1;
        done, w := TryCollect();
      }
    }

    /** return_finished_work. */
    method ReturnFinishedWork(w: nat) returns (ok: bool)
      modifies this
      ensures ok == CanReturn(old(Box()))
      ensures Box() == if ok then ReturnWork(old(Box()), w) else old(Box())
    {
      if work != None {
        return false;
      }
      if s != WORKING {
        return false;
      }
      work := Some(w);
      s := DONE;
      return true;
    }
  }

  /** A full circle of one mailbox: no assertion fails, both sides get the pointer that
      was queued, and the mailbox is as it was before. */
  method Circle(arg: Arg, w: nat) returns (taken: Option<nat>, back: Option<nat>)
    requires CanPut(arg.Box())
    modifies arg
    ensures taken == back == Some(w)
    ensures arg.Box() == old(arg.Box())
  {
    var nobody := (i: nat) => Mailbox(None, IDLE, None, true);
    var ok := arg.QueueWork(w);
    assert ok;
    ghost var k;
    ok, taken, k := arg.WaitForWork(nobody, 0);
    assert ok && k == 0;
    ok := arg.ReturnFinishedWork(taken.value);
    assert ok;
    back, k := arg.WaitUntilDone(nobody, 0);
  }
}

/** The barrier of `barrier.c`, updating its counters in place. */
module Barriers {
  import opened Sync
  import Division

  datatype InitResult = Ready | Einval

  class PhaseBarrier {
    var owner: Option<nat>
    var limit: nat
    var count: nat
    var phase: nat

    function Value(): Barrier
      reads this
    {
      Barrier(owner, limit, count, phase)
    }

    constructor ()
      ensures Value() == Barrier(None, 0, 0, 0)
    {
      owner, limit, count, phase := None, 0, 0, 0;
    }

    /** pthread_barrier_init: no participants is an error. */
    method Init(participants: nat) returns (code: InitResult)
      modifies this
      ensures code == if participants == 0 then Einval else Ready
      ensures Value() == if participants == 0 then old(Value()) else Barrier(old(owner), participants, 0, 0)
    {
      if participants == 0 {
        return Einval;
      }
      limit := participants;
      count := 0;
      phase := 0;
      return Ready;
    }

    /** pthread_barrier_wait up to its first wait or its end: `serial` is the return
        PTHREAD_BARRIER_SERIAL_THREAD, `saved` is the phase the thread waits for to end. */
    method Enter() returns (serial: bool, saved: nat)
      modifies this
      ensures serial == Completes(old(Value()))
      ensures Value() == Arrive(old(Value()))
      ensures saved == old(phase)
    {
      saved := phase;
      count := count + 1;
      if count >= limit {
        phase := (phase + 1) % PHASES;
        count := 0;
        return true, saved;
      }
      return false, saved;
    }

    /** pthread_cond_wait: the barrier as the other threads have left it. */
    method Resume(found: Barrier)
      modifies this
      ensures Value() == found
    {
      owner, limit, count, phase := found.owner, found.limit, found.count, found.phase;
    }

    /** pthread_barrier_wait: `wakes(i)` is what the thread finds after its i-th wait, and
        wake-up `last` finds its phase over. The last to arrive returns at once; any other
        waits at least once, and returns after k waits, when it first finds another phase
        than the one it arrived in. */
    method Wait(wakes: nat -> Barrier, ghost last: nat) returns (serial: bool, ghost k: nat)
      requires Completes(Value()) || wakes(last).phase != phase
      modifies this
      ensures serial == Completes(old(Value()))
      ensures serial ==> k == 0 && Value() == Arrive(old(Value()))
      ensures !serial ==>
                && 0 < k <= last + 1
                && Value() == wakes(k - 1) && wakes(k - 1).phase != old(phase)
                && forall i | 0 <= i < k - 1 :: wakes(i).phase == old(phase)
    {
      var saved;
      serial, saved := Enter();
      k := 0;
      if serial {
        return;
      }
      Resume(wakes(0));
      var i := 1;
      k := 1;
      while saved == phase
        invariant k == i && 0 < k <= last + 1
        invariant Value() == wakes(k - 1)
        invariant forall m | 0 <= m < k - 1 :: wakes(m).phase == saved
        decreases last + 1 - k
      {
        assert k != last + 1;
        Resume(wakes(i));
        i := i + 1;
        k := k + 1;
      }
    }
  }

  /** n arrivals one after the other. */
  function Arrivals(b: Barrier, n: nat): Barrier {
    if n == 0 then b else Arrive(Arrivals(b, n - 1))
  }

  lemma NextPhaseOf(x: nat)
    ensures NextPhase(x % PHASES) == (x + 1) % PHASES
  {
  }

  /** One arrival, when the counters stand for x arrivals since phase `start`. */
  lemma OneArrival(b: Barrier, start: nat, x: nat)
    requires b.limit > 0 && b.count == x % b.limit && b.phase == (start + x / b.limit) % PHASES
    ensures Arrive(b).count == (x + 1) % b.limit
    ensures Arrive(b).phase == (start + (x + 1) / b.limit) % PHASES
  {
    Division.CountUp(x, b.limit, x / b.limit, x % b.limit);
    NextPhaseOf(start + x / b.limit);
  }

  /** Out of any n arrivals exactly every limit-th completes a phase, whatever n is. */
  lemma {:induction false} ArrivalsCount(b: Barrier, n: nat)
    requires b.count < b.limit && b.phase < PHASES
    ensures var r := Arrivals(b, n);
            && r.limit == b.limit && r.owner == b.owner
            && r.count == (b.count + n) % b.limit
            && r.phase == (b.phase + (b.count + n) / b.limit) % PHASES
    decreases n
  {
    if n == 0 {
      Division.Quotient(b.count, b.limit, 0, b.count);
    } else {
      ArrivalsCount(b, n - 1);
      OneArrival(Arrivals(b, n - 1), b.phase, b.count + n - 1);
    }
  }
}
