/** The data that the worker pool shares between threads, and what the code
    between two pthread calls does to it.  Each function below is one critical
    section (or the part of one up to the next pthread call); the state machine in
    `Pool` runs them as steps, and the classes in `Mailboxes` and `Barriers` carry
    them out in place. */
module Sync {
  datatype Option<+T> = None | Some(value: T)

  datatype Status = IDLE | QUEUED | WORKING | DONE

  /** The mutable part of `struct arg`: its mutex owner, work pointer, status and
      run flag.  A work pointer is the index of a slot in the current step. */
  datatype Mailbox = Mailbox(owner: Option<nat>, s: Status, work: Option<nat>, run: bool)

  /** `unsigned long` phase values. */
  const PHASES := 0x1_0000_0000_0000_0000

  datatype Barrier = Barrier(owner: Option<nat>, limit: nat, count: nat, phase: nat)

  function NextPhase(phase: nat): nat {
    (phase + 1) % PHASES
  }

  /** The two assertions at the head of queue_work. */
  predicate CanPut(b: Mailbox) {
    b.work == None && b.s == IDLE
  }

  function PutWork(b: Mailbox, work: nat): Mailbox {
    b.(work := Some(work), s := QUEUED)
  }

  function TakeWork(b: Mailbox): Mailbox {
    b.(work := None, s := WORKING)
  }

  /** The two assertions at the head of return_finished_work. */
  predicate CanReturn(b: Mailbox) {
    b.work == None && b.s == WORKING
  }

  function ReturnWork(b: Mailbox, work: nat): Mailbox {
    b.(work := Some(work), s := DONE)
  }

  function Collect(b: Mailbox): Mailbox {
    b.(work := None, s := IDLE)
  }

  /** True when the arriving thread is the one that completes the phase. */
  predicate Completes(b: Barrier) {
    b.count + 1 >= b.limit
  }

  /** The effect of an arrival on the barrier's counters. */
  function Arrive(b: Barrier): Barrier {
    if Completes(b) then b.(count := 0, phase := NextPhase(b.phase)) else b.(count := b.count + 1)
  }
}
