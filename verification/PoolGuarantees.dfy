/** What the invariant promises in every state of every run. */
module PoolGuarantees {
  import opened Sync
  import opened Pool
  import opened PoolInvariant
  import opened PoolWorker
  import opened PoolController
  import opened PoolSafety

  /** State j of a run, with the abort flag ignored, satisfies the invariant. */
  lemma Reached(c: Config, states: seq<State>, labels: seq<Label>, j: nat)
    requires WellFormed(c) && IsRun(c, states, labels) && j <= |labels|
    ensures Inv(c, states[j].(failed := false))
    ensures Sizes(c, states[j])
    ensures states[j].failed ==> AboutToAbort(c, states[j])
  {
    StateSafe(c, states, labels, j);
    if !states[j].failed {
      assert states[j].(failed := false) == states[j];
    }
  }

  /** Every thread of every reached state satisfies its part of the invariant. */
  lemma ReachedLocal(c: Config, states: seq<State>, labels: seq<Label>, j: nat, t: nat)
    requires WellFormed(c) && IsRun(c, states, labels) && j <= |labels| && t < c.n
    ensures Sizes(c, states[j]) && LocalIn(c, states[j], t)
  {
    Reached(c, states, labels, j);
    var s := states[j].(failed := false);
    assert LocalIn(c, s, t);
    assert ViewOf(c, s) == ViewOf(c, states[j]);
  }

  // ----- mailbox safety -----------------------------------------------------------------

  /** The pointer is in the mailbox exactly when it is QUEUED or DONE, and a worker
      holds a work pointer exactly when its mailbox is WORKING. */
  predicate PointerPlace(th: Thread, b: Mailbox) {
    && (b.work.Some? <==> b.s == QUEUED || b.s == DONE)
    && (WorkPc(th.pc) <==> b.s == WORKING)
  }

  lemma LocalPointer(c: Config, v: View, slots: seq<Option<Job>>, t: nat, th: Thread, b: Mailbox)
    requires Local(c, v, slots, t, th, b)
    ensures PointerPlace(th, b)
  {
  }

  lemma MailboxPointers(c: Config, states: seq<State>, labels: seq<Label>, j: nat, t: nat)
    requires WellFormed(c) && IsRun(c, states, labels) && j <= |labels| && t < c.n
    ensures Sizes(c, states[j]) && PointerPlace(states[j].thr[t], states[j].box[t])
  {
    ReachedLocal(c, states, labels, j, t);
    var s := states[j];
    LocalPointer(c, ViewOf(c, s), s.slots, t, s.thr[t], s.box[t]);
  }

  /** wait_until_done returns the very pointer that queue_work was given. */
  lemma CollectsWhatWasQueued(c: Config, states: seq<State>, labels: seq<Label>, j: nat)
    requires WellFormed(c) && IsRun(c, states, labels) && j <= |labels|
    requires |states[j].thr| > 0 && states[j].thr[0].pc.CCTest?
    ensures var s := states[j];
            && s.round < |c.rounds| && s.thr[0].k < |c.rounds[s.round].group|
            && var i := c.rounds[s.round].group[s.thr[0].k];
               i < |s.box| && (s.box[i].s == DONE ==> s.box[i].work == Some(s.thr[0].k))
  {
    Reached(c, states, labels, j);
    var s := states[j].(failed := false);
    RoundFacts(c, s);
    IndexUnique(c.rounds[s.round].group, s.thr[0].k);
    assert LocalIn(c, s, Target(c, s));
  }

  /** Whenever a driver starts a round, the pool is idle, but for the mailbox of a dirigent
      that an earlier pair round has left DONE. */
  lemma IdleBetweenRounds(c: Config, states: seq<State>, labels: seq<Label>, j: nat, t: nat)
    requires WellFormed(c) && IsRun(c, states, labels) && j <= |labels| && t < c.n
    requires |states[j].thr| > 0 && states[j].thr[0].pc.CInit?
    ensures |states[j].box| == c.n
    ensures CanPut(states[j].box[t]) <==> !(t == 0 && StuckBefore(c, states[j].round))
  {
    ReachedLocal(c, states, labels, j, t);
  }

  // ----- no lost wakeup --------------------------------------------------------------------

  /** Whoever waits on mailbox i's condition variable waits for this. */
  predicate Awaits(s: State, u: nat, i: nat)
    requires i < |s.box|
  {
    if u == i then s.box[i].s == QUEUED else s.box[i].s == DONE
  }

  lemma QueueSignalHits(c: Config, s: State, u: nat)
    requires Inv(c, s) && s.thr[0].pc.CQSignal? && InRound(c, s) && AsleepOn(c, s, u, Target(c, s))
    ensures u == Target(c, s) && s.box[u].s == QUEUED
  {
    assert WakeOk(c, s, 0);
  }

  lemma ReturnSignalHits(c: Config, s: State, t: nat, u: nat)
    requires Inv(c, s) && t < c.n && s.thr[t].pc.RSignal? && AsleepOn(c, s, u, t)
    ensures u == 0 && t != 0 && s.box[t].s == DONE
  {
    assert LocalIn(c, s, t);
    LocalPointer(c, ViewOf(c, s), s.slots, t, s.thr[t], s.box[t]);
  }

  /** At every signal at most one thread sleeps on the condition variable, and what
      it waits for has just come true. */
  lemma SignalHitsItsWaiter(c: Config, states: seq<State>, labels: seq<Label>, j: nat, t: nat, u: nat)
    requires WellFormed(c) && IsRun(c, states, labels) && j <= |labels| && t < c.n
    requires Shaped(c, states[j]) && SignalTarget(c, states[j], t).Some?
    requires AsleepOn(c, states[j], u, SignalTarget(c, states[j], t).value)
    ensures var i := SignalTarget(c, states[j], t).value;
            && i < |states[j].box| && Awaits(states[j], u, i)
            && forall x | AsleepOn(c, states[j], x, i) :: x == u
  {
    Reached(c, states, labels, j);
    var s := states[j].(failed := false);
    var i := SignalTarget(c, states[j], t).value;
    if s.thr[t].pc.CQSignal? {
      RoundFacts(c, s);
    }
    forall x | AsleepOn(c, states[j], x, i)
      ensures i < c.n && x == (if s.thr[t].pc.CQSignal? then i else 0) && Awaits(s, x, i)
    {
      if s.thr[t].pc.CQSignal? { QueueSignalHits(c, s, x); } else { ReturnSignalHits(c, s, t, x); }
    }
  }

  /** A sleeping thread whose condition holds is about to be signalled: by the
      controller, by its worker, or by the thread completing the barrier phase. */
  lemma SleepersAreSignalled(c: Config, states: seq<State>, labels: seq<Label>, j: nat, t: nat)
    requires WellFormed(c) && IsRun(c, states, labels) && j <= |labels| && t < c.n
    ensures Sizes(c, states[j])
    ensures var s := states[j];
            var g := Group(c, s.round);
            && (s.thr[t].pc.WSleep? && s.box[t].s == QUEUED ==>
                  s.thr[0].pc.CQSignal? && s.thr[0].k < |g| && g[s.thr[0].k] == t)
            && (t == 0 && s.thr[0].pc.CCSleep? ==>
                  && s.thr[0].k < |g| && g[s.thr[0].k] < c.n
                  && (s.box[g[s.thr[0].k]].s == DONE ==> s.thr[g[s.thr[0].k]].pc.RSignal?))
            && (s.thr[t].pc.BSleep? && s.thr[t].saved != s.bar.phase ==>
                  exists u | 0 <= u < c.n :: s.thr[u].pc.BBroadcast?)
  {
    Reached(c, states, labels, j);
    var s := states[j].(failed := false);
    assert WakeOk(c, s, t);
    if t == 0 && s.thr[0].pc.CCSleep? {
      RoundFacts(c, s);
    }
    if s.thr[t].pc.BSleep? && s.thr[t].saved != s.bar.phase {
      assert s.thr[s.bar.owner.value].pc.BBroadcast?;
    }
  }

  // ----- the synchronised start -----------------------------------------------------------------

  /** While any worker is in its repetition loop, every member of the round has been
      queued, has taken its job and has finished init_arg and arch_pmu_init. */
  lemma SynchronisedStart(c: Config, states: seq<State>, labels: seq<Label>, j: nat, t: nat, k: nat)
    requires WellFormed(c) && IsRun(c, states, labels) && j <= |labels| && t < c.n
    requires |states[j].thr| == c.n && (states[j].thr[t].pc.WRep? || states[j].thr[t].pc.WCall?)
    requires k < |Group(c, states[j].round)|
    ensures var s := states[j];
            var u := Group(c, s.round)[k];
            && |s.box| == c.n && u < c.n && k < ViewOf(c, s).hi
            && s.box[u].s != QUEUED && !BeforeBarrierPc(s.thr[u].pc)
  {
    Reached(c, states, labels, j);
    var s := states[j].(failed := false);
    RoundFacts(c, s);
    PassedIsAfter(c, s, t);
    StartTogether(c, s, t, k);
    assert ViewOf(c, s) == ViewOf(c, states[j]);
  }

  lemma StartTogether(c: Config, s: State, t: nat, k: nat)
    requires Inv(c, s) && t < c.n && PlaceIn(c, s, t) == After
    requires k < |Group(c, s.round)| && Distinct(Group(c, s.round)) && Group(c, s.round)[k] < c.n
    ensures var u := Group(c, s.round)[k];
            k < ViewOf(c, s).hi && s.box[u].s != QUEUED && !BeforeBarrierPc(s.thr[u].pc)
  {
    var u := Group(c, s.round)[k];
    IndexUnique(Group(c, s.round), k);
    assert ViewOf(c, s).round == s.round && ViewOf(c, s).lo <= ViewOf(c, s).hi;
    assert PlaceIn(c, s, u) == After;
    assert LocalIn(c, s, u);
    AfterIsPast(c, ViewOf(c, s), s.slots, s.bar.phase, u, s.thr[u], s.box[u]);
  }

  lemma PassedIsAfter(c: Config, s: State, t: nat)
    requires Inv(c, s) && t < c.n && PassedPc(s.thr[t].pc)
    ensures PlaceIn(c, s, t) == After
  {
    assert LocalIn(c, s, t);
    LocalPassed(c, ViewOf(c, s), s.slots, s.bar.phase, t, s.thr[t], s.box[t]);
  }

  lemma LocalPassed(c: Config, v: View, slots: seq<Option<Job>>, phase: nat, t: nat, th: Thread, b: Mailbox)
    requires Local(c, v, slots, t, th, b) && PassedPc(th.pc)
    ensures PlaceOf(c, v, phase, t, th, b) == After
  {
  }

  lemma AfterIsPast(c: Config, v: View, slots: seq<Option<Job>>, phase: nat, u: nat, th: Thread, b: Mailbox)
    requires Local(c, v, slots, u, th, b) && PlaceOf(c, v, phase, u, th, b) == After
    ensures IndexOf(Group(c, v.round), u) < v.hi || IndexOf(Group(c, v.round), u) < v.lo
    ensures b.s != QUEUED && !BeforeBarrierPc(th.pc)
    ensures v.lo <= v.hi ==> IndexOf(Group(c, v.round), u) < v.hi
  {
  }

  // ----- the shared step -------------------------------------------------------------------------

  lemma WorkingFacts(c: Config, v: View, slots: seq<Option<Job>>, t: nat, th: Thread, b: Mailbox)
    requires Local(c, v, slots, t, th, b) && WorkPc(th.pc)
    ensures v.lo <= th.held < v.hi && v.round < |c.rounds|
    ensures th.held < |c.rounds[v.round].group| && c.rounds[v.round].group[th.held] == t
    ensures th.held < |slots| && slots[th.held] == Some(JobOf(c.rounds[v.round], th.held))
  {
  }

  /** A worker's pointer leads to its own slot, which still holds the job it was
      queued with, in a step that has not been freed. */
  lemma StepStaysValid(c: Config, states: seq<State>, labels: seq<Label>, j: nat, t: nat)
    requires WellFormed(c) && IsRun(c, states, labels) && j <= |labels| && t < c.n
    requires |states[j].thr| == c.n && WorkPc(states[j].thr[t].pc)
    ensures var s := states[j];
            var h := s.thr[t].held;
            && s.alive && s.round < |c.rounds| && h < |c.rounds[s.round].group| && h < |s.slots|
            && c.rounds[s.round].group[h] == t
            && s.slots[h] == Some(JobOf(c.rounds[s.round], h))
            && s.bar.limit == |c.rounds[s.round].group|
  {
    ReachedLocal(c, states, labels, j, t);
    ReachedLive(c, states, labels, j, t);
    var s := states[j];
    WorkingFacts(c, ViewOf(c, s), s.slots, t, s.thr[t], s.box[t]);
  }

  lemma ReachedLive(c: Config, states: seq<State>, labels: seq<Label>, j: nat, t: nat)
    requires WellFormed(c) && IsRun(c, states, labels) && j <= |labels| && t < c.n
    requires |states[j].thr| == c.n && WorkPc(states[j].thr[t].pc)
    ensures states[j].alive && states[j].bar.limit == |Group(c, states[j].round)|
  {
    Reached(c, states, labels, j);
    StepIsLive(c, states[j].(failed := false), t);
  }

  /** The slot being filled and the step being freed are in nobody's hands. */
  lemma StepNotDisturbed(c: Config, states: seq<State>, labels: seq<Label>, j: nat, t: nat)
    requires WellFormed(c) && IsRun(c, states, labels) && j <= |labels| && t < c.n
    ensures Sizes(c, states[j])
    ensures states[j].thr[0].pc.CFill? && WorkPc(states[j].thr[t].pc) ==> states[j].thr[t].held < states[j].thr[0].k
    ensures states[j].thr[0].pc.CFree? || states[j].thr[0].pc.CInit? ==> !WorkPc(states[j].thr[t].pc)
  {
    ReachedLocal(c, states, labels, j, t);
    NotDisturbedIn(c, states[j], t);
  }

  lemma NotDisturbedIn(c: Config, s: State, t: nat)
    requires Sizes(c, s) && t < c.n && LocalIn(c, s, t)
    ensures s.thr[0].pc.CFill? && WorkPc(s.thr[t].pc) ==> s.thr[t].held < s.thr[0].k
    ensures s.thr[0].pc.CFree? || s.thr[0].pc.CInit? ==> !WorkPc(s.thr[t].pc)
  {
    if WorkPc(s.thr[t].pc) {
      WorkingFacts(c, ViewOf(c, s), s.slots, t, s.thr[t], s.box[t]);
    }
  }

  lemma LocalStop(c: Config, v: View, slots: seq<Option<Job>>, t: nat, th: Thread, b: Mailbox)
    requires Local(c, v, slots, t, th, b)
    ensures th.pc.WCall? && th.held < |slots| && slots[th.held].Some? && slots[th.held].value.stop.Some? ==>
              slots[th.held].value.stop.value == t
    ensures !b.run <==> StoppedBefore(c, v.round, t) || HasCalledStop(c, v.round, t, th)
  {
  }

  /** Thread t has executed the stop job that round r gives it. */
  predicate HasCalledStop(c: Config, r: nat, t: nat, th: Thread) {
    && r < |c.rounds| && c.rounds[r].stop && t in c.rounds[r].group
    && th.calls > CallsBefore(c, r, t)
  }

  /** What state s says about thread t's stop job. */
  predicate StopFacts(c: Config, s: State, t: nat)
    requires Sizes(c, s) && t < c.n
  {
    && (s.thr[t].pc.WCall? && JobRead(s, s.thr[t]).stop.Some? ==> JobRead(s, s.thr[t]).stop.value == t)
    && (!s.box[t].run <==> StoppedBefore(c, s.round, t) || HasCalledStop(c, s.round, t, s.thr[t]))
  }

  lemma StopFactsIn(c: Config, s: State, t: nat)
    requires Sizes(c, s) && t < c.n && LocalIn(c, s, t)
    ensures StopFacts(c, s, t)
  {
    LocalStop(c, ViewOf(c, s), s.slots, t, s.thr[t], s.box[t]);
  }

  /** A stop job clears the run flag of the thread that executes it and no other, and a
      flag is clear exactly when that thread has executed its own stop job, in an earlier
      round or in this one. */
  lemma StopIsOwn(c: Config, states: seq<State>, labels: seq<Label>, j: nat, t: nat)
    requires WellFormed(c) && IsRun(c, states, labels) && j <= |labels| && t < c.n
    ensures Sizes(c, states[j]) && StopFacts(c, states[j], t)
  {
    ReachedLocal(c, states, labels, j, t);
    StopFactsIn(c, states[j], t);
  }
}
