/** Every run ends, and how it ends. */
module PoolTermination {
  import opened Sync
  import opened Pool
  import opened PoolInvariant
  import opened PoolWorker
  import opened PoolController
  import opened PoolRounds
  import opened PoolSafety
  import opened PoolProgress
  import opened PoolRank

  // ----- every step but a spurious wakeup lowers the rank ---------------------------------

  lemma ControllerFalls(c: Config, s: State, w: nat)
    requires WellFormed(c) && Inv(c, s) && Shaped(c, s) && CtlPc(s.thr[0].pc) && Enabled(c, s, 0)
    ensures Sizes(c, Exec(c, s, 0, w)) && Rank(c, Exec(c, s, 0, w)) < Rank(c, s)
  {
    RoundFacts(c, s);
    ControllerFallsCases(c, s, w);
  }

  lemma ControllerFallsCases(c: Config, s: State, w: nat)
    requires Inv(c, s) && InRound(c, s) && !s.thr[0].pc.CCSleep?
    ensures Sizes(c, ControllerStep(c, s, w)) && Rank(c, ControllerStep(c, s, w)) < Rank(c, s)
  {
    var pc := s.thr[0].pc;
    if pc.CInit? { InitFalls(c, s); }
    else if pc.CFree? { NobodyWorks(c, s); FreeFalls(c, s); }
    else if pc.CQSet? { PutFalls(c, s, w); }
    else if pc.CQSignal? { NotifyFalls(c, s, w); }
    else { CtlFalls(c, s, w); }
  }

  lemma NobodyWorks(c: Config, s: State)
    requires Inv(c, s) && ViewOf(c, s).lo >= ViewOf(c, s).hi
    ensures forall t | 0 <= t < c.n :: !WorkPc(s.thr[t].pc) && s.box[t].s != QUEUED
  {
    forall t | 0 <= t < c.n
      ensures !WorkPc(s.thr[t].pc) && s.box[t].s != QUEUED
    {
      assert LocalIn(c, s, t);
    }
  }

  /** What the repetition loop knows about its job. */
  lemma JobFacts(c: Config, s: State, t: nat)
    requires Inv(c, s) && t < c.n && QuietJobPc(t, s.thr[t].pc)
    ensures var th, b := s.thr[t], s.box[t];
            && (th.pc.WRep? || th.pc.WCall? ==> JobRead(s, th).reps == Reps(c, s.round))
            && (th.pc.WCall? ==> th.rep < Reps(c, s.round) && (JobRead(s, th).stop.Some? ==> JobRead(s, th).stop.value == t))
            && (th.pc.RSet? ==> CanReturn(b))
  {
    assert LocalIn(c, s, t);
  }

  lemma WorkerFalls(c: Config, s: State, t: nat, w: nat)
    requires WellFormed(c) && Inv(c, s) && Shaped(c, s) && Enabled(c, s, t) && !CtlPc(s.thr[t].pc)
    ensures Sizes(c, Exec(c, s, t, w)) && Rank(c, Exec(c, s, t, w)) < Rank(c, s)
  {
    EnabledMayStep(c, s, t);
    MemberRuns(c, s.round, t);
    if QuietJobPc(t, s.thr[t].pc) { JobFacts(c, s, t); }
    WorkerFallsCases(c, s, t, w);
  }

  lemma WaitsFreely(c: Config, s: State, t: nat)
    requires Sizes(c, s) && t < c.n && LocalIn(c, s, t) && (PrePc(s.thr[t].pc) || s.thr[t].pc.WUnlock?)
    requires IndexOf(Group(c, s.round), t) >= 0 ==> !StoppedBefore(c, s.round, t)
    ensures !(s.thr[t].pc.WLock? && s.box[t].s == WORKING)
  {
    WaitLocal(c, ViewOf(c, s), s.slots, s.bar.phase, t, s.thr[t], s.box[t]);
  }

  lemma WorkerFallsCases(c: Config, s: State, t: nat, w: nat)
    requires Inv(c, s) && MayStep(c, s, t) && !CtlPc(s.thr[t].pc) && !s.thr[t].pc.WExit?
    requires IndexOf(Group(c, s.round), t) >= 0 ==> !StoppedBefore(c, s.round, t)
    requires QuietJobPc(t, s.thr[t].pc) ==>
               var th, b := s.thr[t], s.box[t];
               && (th.pc.WRep? || th.pc.WCall? ==> JobRead(s, th).reps == Reps(c, s.round))
               && (th.pc.WCall? ==> th.rep < Reps(c, s.round) && (JobRead(s, th).stop.Some? ==> JobRead(s, th).stop.value == t))
               && (th.pc.RSet? ==> CanReturn(b))
    ensures Sizes(c, WorkerResult(c, s, t, w)) && Rank(c, WorkerResult(c, s, t, w)) < Rank(c, s)
  {
    var pc := s.thr[t].pc;
    if PrePc(pc) || pc.WUnlock? {
      WaitsFreely(c, s, t);
      WaitFalls(c, s, t);
    } else if QuietJobPc(t, pc) {
      JobFalls(c, s, t, w, if pc.WCall? && JobRead(s, s.thr[t]).stop.Some? then s.box[t].(run := false) else JobBox(t, s.thr[t], s.box[t]));
    } else if pc.RSignal? { SignalFalls(c, s, t, w); }
    else if pc.RUnlock? { LeaveFalls(c, s, w); }
    else if pc.BBroadcast? { BroadcastFalls(c, s, t); }
    else { BarrierFalls(c, s, t); }
  }

  /** The whole-run progress measure. */
  lemma StepRank(c: Config, s: State, l: Label, s': State)
    requires WellFormed(c) && Safe(c, s) && Next(c, s, l, s')
    ensures Sizes(c, s) && Sizes(c, s')
    ensures l.Run? ==> Rank(c, s') < Rank(c, s)
    ensures l.Spurious? ==> Rank(c, s') <= Rank(c, s) + 2
  {
    StepSafe(c, s, l, s');
    match l
    case Run(t, w) =>
      if CtlPc(s.thr[t].pc) { ControllerFalls(c, s, w); } else { WorkerFalls(c, s, t, w); }
    case Spurious(t) => SpuriousRises(c, s, t);
  }

  function SpuriousCount(labels: seq<Label>): nat {
    if |labels| == 0 then 0
    else SpuriousCount(labels[..|labels| - 1]) + (if labels[|labels| - 1].Spurious? then 1 else 0)
  }

  lemma {:induction false} RunRank(c: Config, states: seq<State>, labels: seq<Label>)
    requires WellFormed(c) && IsRun(c, states, labels)
    ensures Sizes(c, Start(c)) && Safe(c, states[|labels|]) && Sizes(c, states[|labels|])
    ensures |labels| + Rank(c, states[|labels|]) <= Rank(c, Start(c)) + 3 * SpuriousCount(labels)
  {
    RunSafe(c, states, labels);
    StartInv(c);
    if |labels| > 0 {
      var m := |labels| - 1;
      forall j {:trigger labels[..m][j]} | 0 <= j < m
        ensures Next(c, states[..m + 1][j], labels[..m][j], states[..m + 1][j + 1])
      {
        assert Next(c, states[j], labels[j], states[j + 1]);
      }
      RunRank(c, states[..m + 1], labels[..m]);
      assert states[..m + 1][m] == states[m];
      assert Next(c, states[m], labels[m], states[m + 1]);
      StepRank(c, states[m], labels[m], states[m + 1]);
    }
  }

  /** Termination: the length of a run is bounded by the rank of the initial state
      and three steps for each spurious wakeup. */
  lemma RunsEnd(c: Config, states: seq<State>, labels: seq<Label>)
    requires WellFormed(c) && IsRun(c, states, labels)
    ensures Sizes(c, Start(c))
    ensures |labels| <= Rank(c, Start(c)) + 3 * SpuriousCount(labels)
  {
    RunRank(c, states, labels);
  }

  // ----- how a run ends -----------------------------------------------------------------------

  /** No thread has a step other than a spurious wakeup. */
  ghost predicate Quiescent(c: Config, s: State) {
    forall l, s' :: Next(c, s, l, s') ==> l.Spurious?
  }

  lemma StepExists(c: Config, s: State)
    requires CanStep(c, s)
    ensures !Quiescent(c, s)
  {
    var t :| 0 <= t < c.n && Enabled(c, s, t);
    var i := SignalTarget(c, s, t);
    var w: nat := 0;
    if i.Some? {
      if u :| 0 <= u < c.n && AsleepOn(c, s, u, i.value) { w := u; }
    }
    assert WakeChoice(c, s, t, w);
    assert Next(c, s, Label.Run(t, w), Exec(c, s, t, w));
  }

  /** All work done: every thread has made exactly the calls it was asked for,
      every mailbox is idle (but for the dirigent's after a pair round), every
      stopped thread has left its loop and been joined once, and no step is
      allocated. */
  predicate Finished(c: Config, s: State) {
    && Sizes(c, s) && !s.failed && s.thr[0].pc.CDone? && !s.alive
    && s.joined == StoppedList(c, |c.rounds|)
    && (forall t | 0 <= t < c.n :: s.thr[t].calls == CallsBefore(c, |c.rounds|, t))
    && (forall t | 0 < t < c.n :: CanPut(s.box[t]))
    && (if StuckBefore(c, |c.rounds|) then s.box[0].s == DONE else CanPut(s.box[0]))
    && (forall t | 0 < t < c.n :: StoppedBefore(c, |c.rounds|, t) <==> s.thr[t].pc.WExit?)
  }

  /** A thread once all rounds are over. */
  predicate ThreadDone(c: Config, t: nat, th: Thread, b: Mailbox) {
    && th.calls == CallsBefore(c, |c.rounds|, t)
    && (t > 0 ==> CanPut(b))
    && (t == 0 ==> if StuckBefore(c, |c.rounds|) then b.s == DONE else CanPut(b))
    && (t > 0 && th.pc.WExit? ==> StoppedBefore(c, |c.rounds|, t))
    && (t > 0 && StoppedBefore(c, |c.rounds|, t) ==> th.pc.WExit? || th.pc.WLoop?)
  }

  lemma LocalDone(c: Config, v: View, slots: seq<Option<Job>>, t: nat, th: Thread, b: Mailbox)
    requires Local(c, v, slots, t, th, b) && v == View(|c.rounds|, 0, 0, StuckBefore(c, |c.rounds|))
    ensures ThreadDone(c, t, th, b)
  {
  }

  lemma ThreadsDone(c: Config, s: State)
    requires Sizes(c, s) && Locals(c, s) && s.thr[0].pc.CDone? && s.round == |c.rounds|
    ensures forall t | 0 <= t < c.n :: ThreadDone(c, t, s.thr[t], s.box[t])
  {
    forall t | 0 <= t < c.n
      ensures ThreadDone(c, t, s.thr[t], s.box[t])
    {
      assert LocalIn(c, s, t);
      LocalDone(c, ViewOf(c, s), s.slots, t, s.thr[t], s.box[t]);
    }
  }

  lemma DoneExits(c: Config, s: State, t: nat)
    requires WellFormed(c) && Inv(c, s) && Quiescent(c, s) && t < c.n
    ensures !s.thr[t].pc.WLoop?
  {
    if s.thr[t].pc.WLoop? {
      InvShaped(c, s);
      MovableRuns(c, s, t);
      StepExists(c, s);
    }
  }

  lemma DoneController(c: Config, s: State)
    requires Inv(c, s) && s.thr[0].pc.CDone?
    ensures s.round == |c.rounds| && !s.alive && s.joined == StoppedList(c, |c.rounds|) && Collectable(c)
  {
  }

  lemma DoneIsFinished(c: Config, s: State)
    requires WellFormed(c) && Inv(c, s) && s.thr[0].pc.CDone? && Quiescent(c, s)
    ensures Finished(c, s) && Collectable(c)
  {
    DoneController(c, s);
    ThreadsDone(c, s);
    forall t | 0 <= t < c.n ensures ThreadDone(c, t, s.thr[t], s.box[t]) && !s.thr[t].pc.WLoop? {
      DoneExits(c, s, t);
    }
    assert ThreadDone(c, 0, s.thr[0], s.box[0]);
  }

  /** Total correctness of a whole program: whatever the interleaving, a run that
      can only go on by spurious wakeups has finished all its work if and only if
      no round gives the dirigent work after a pair round, and otherwise it has
      aborted in queue_work. */
  lemma RunOutcome(c: Config, states: seq<State>, labels: seq<Label>)
    requires WellFormed(c) && IsRun(c, states, labels)
    requires Quiescent(c, states[|labels|])
    ensures Collectable(c) <==> Finished(c, states[|labels|])
    ensures !Collectable(c) <==> states[|labels|].failed
  {
    RunSafe(c, states, labels);
    var s := states[|labels|];
    if Inv(c, s) {
      if !s.thr[0].pc.CDone? {
        NoDeadlock(c, s);
        StepExists(c, s);
      }
      DoneIsFinished(c, s);
    } else {
      AbortIsStuck(c, s);
    }
  }

  lemma AbortIsStuck(c: Config, s: State)
    requires AboutToAbort(c, s)
    ensures !Collectable(c)
  {
    var g := c.rounds[s.round].group;
    assert 0 in g;
  }
}
