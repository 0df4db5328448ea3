/** The invariant holds in every reachable state; what it means for the program. */
module PoolSafety {
  import opened Sync
  import opened Pool
  import opened PoolInvariant
  import opened PoolFrames
  import opened PoolWorker
  import opened PoolBarrier
  import opened PoolReturn
  import opened PoolController
  import opened PoolRounds
  import opened PoolQueue

  // ----- one step ---------------------------------------------------------------------

  lemma RoundFacts(c: Config, s: State)
    requires WellFormed(c) && Inv(c, s) && s.round < |c.rounds|
    ensures RoundOk(c.n, c.rounds[s.round])
    ensures s.round + 1 < |c.rounds| ==> RoundOk(c.n, c.rounds[s.round + 1])
    ensures !c.rounds[s.round].free ==> s.round + 1 < |c.rounds| && |Group(c, s.round + 1)| == |Group(c, s.round)|
    ensures forall k | 0 <= k < |c.rounds[s.round].group| :: !StoppedBefore(c, s.round, c.rounds[s.round].group[k])
    ensures CtlPc(s.thr[0].pc) ==> InRound(c, s)
  {
  }

  /** The controller is about to queue work for a dirigent whose mailbox an earlier
      round left DONE: the assertion in queue_work fails. */
  predicate AboutToAbort(c: Config, s: State) {
    && Sizes(c, s) && s.thr[0].pc.CQSet? && s.round < |c.rounds|
    && s.thr[0].k < |c.rounds[s.round].group|
    && c.rounds[s.round].group[s.thr[0].k] == 0 && StuckBefore(c, s.round)
  }

  lemma ControllerInv(c: Config, s: State, w: nat)
    requires WellFormed(c) && Inv(c, s) && s.round < |c.rounds| && CtlPc(s.thr[0].pc) && InRound(c, s)
    requires !s.thr[0].pc.CCSleep? && !s.thr[0].pc.CInit? && !s.thr[0].pc.CFree? && !s.thr[0].pc.CDone?
    requires s.thr[0].pc.CQLock? || s.thr[0].pc.CCLock? || s.thr[0].pc.CCReacq? ==> s.box[Target(c, s)].owner == None
    requires s.thr[0].pc.CQSignal? ==> forall u | 0 <= u < c.n && AsleepOn(c, s, u, Target(c, s)) :: AsleepOn(c, s, w, Target(c, s))
    requires !StoppedBefore(c, s.round, Target(c, s))
    ensures var s' := ControllerStep(c, s, w);
            if AboutToAbort(c, s) then s' == s.(failed := true) else Inv(c, s')
  {
    var pc := s.thr[0].pc;
    if pc.CFill? { FillInv(c, s, w); }
    else if pc.CQSet? {
      assert LocalIn(c, s, Target(c, s));
      PutOutcome(c, s);
      if CanPut(s.box[Target(c, s)]) { PutInv(c, s, w); }
    }
    else if pc.CQSignal? { NotifyInv(c, s, w); }
    else if pc.CCTest? && s.box[Target(c, s)].s == DONE { CollectInv(c, s, w); }
    else if pc.CJoin? { JoinInv(c, s, w); }
    else { QuietCtlInv(c, s, w); }
  }

  lemma ControllerStepInv(c: Config, s: State, w: nat)
    requires WellFormed(c) && Inv(c, s) && Shaped(c, s) && CtlPc(s.thr[0].pc) && Enabled(c, s, 0) && WakeChoice(c, s, 0, w)
    ensures var s' := Exec(c, s, 0, w);
            if AboutToAbort(c, s) then s' == s.(failed := true) else Inv(c, s')
  {
    RoundFacts(c, s);
    if s.thr[0].pc.CInit? { InitInv(c, s); }
    else if s.thr[0].pc.CFree? { FreeInv(c, s); }
    else {
      QueueSignalFact(c, s, w);
      ControllerInv(c, s, w);
    }
  }

  lemma QueueSignalFact(c: Config, s: State, w: nat)
    requires Shaped(c, s) && WakeChoice(c, s, 0, w) && InRound(c, s)
    ensures s.thr[0].pc.CQSignal? ==>
              forall u | 0 <= u < c.n && AsleepOn(c, s, u, Target(c, s)) :: AsleepOn(c, s, w, Target(c, s))
  {
    if s.thr[0].pc.CQSignal? {
      assert SignalTarget(c, s, 0) == Some(Target(c, s));
    }
  }

  lemma WorkerStepInv(c: Config, s: State, t: nat, w: nat)
    requires WellFormed(c) && Inv(c, s) && Shaped(c, s) && Enabled(c, s, t) && WakeChoice(c, s, t, w)
    requires !CtlPc(s.thr[t].pc)
    ensures Inv(c, Exec(c, s, t, w))
  {
    EnabledMayStep(c, s, t);
    MemberRuns(c, s.round, t);
    if s.thr[t].pc.WCall? { ReadsOwnStop(c, s, t); }
    if s.thr[t].pc.RSignal? { SignalFact(c, s, t, w); }
    if WorkPc(s.thr[t].pc) || ReturnedPc(s.thr[t].pc) {
      WorkingInRound(c, s, t);
      RoundFacts(c, s);
    }
    WorkerCases(c, s, t, w);
  }

  lemma SignalFact(c: Config, s: State, t: nat, w: nat)
    requires Shaped(c, s) && t < c.n && WakeChoice(c, s, t, w) && s.thr[t].pc.RSignal?
    ensures AsleepOn(c, s, 0, t) ==> AsleepOn(c, s, w, t)
  {
    assert SignalTarget(c, s, t) == Some(t);
  }

  lemma ReadsOwnStop(c: Config, s: State, t: nat)
    requires Shaped(c, s) && t < c.n && s.thr[t].pc.WCall?
    ensures var j := JobRead(s, s.thr[t]); j.stop.Some? ==> j.stop.value < |s.box|
  {
  }

  function WorkerResult(c: Config, s: State, t: nat, w: nat): State
    requires Sizes(c, s) && t < c.n
    requires s.thr[t].pc.WCall? ==> var j := JobRead(s, s.thr[t]); j.stop.Some? ==> j.stop.value < |s.box|
  {
    var pc := s.thr[t].pc;
    if PrePc(pc) || pc.WUnlock? then WaitStep(s, t)
    else if pc.WRep? || pc.WCall? || pc.RLock? || pc.RSet? || ReturnedPc(pc) then JobStep(c, s, t, w)
    else BarrierStep(s, t)
  }

  lemma WorkerCases(c: Config, s: State, t: nat, w: nat)
    requires Inv(c, s) && MayStep(c, s, t) && !CtlPc(s.thr[t].pc) && !s.thr[t].pc.WExit?
    requires IndexOf(Group(c, s.round), t) >= 0 ==> !StoppedBefore(c, s.round, t)
    requires s.thr[t].pc.WCall? ==> var j := JobRead(s, s.thr[t]); j.stop.Some? ==> j.stop.value < |s.box|
    requires s.thr[t].pc.RSignal? && AsleepOn(c, s, 0, t) ==> AsleepOn(c, s, w, t)
    requires WorkPc(s.thr[t].pc) || ReturnedPc(s.thr[t].pc) ==>
               s.round < |c.rounds| && RoundOk(c.n, c.rounds[s.round]) && IndexOf(Group(c, s.round), t) >= 0
    ensures Inv(c, WorkerResult(c, s, t, w))
  {
    var pc := s.thr[t].pc;
    if PrePc(pc) || pc.WUnlock? { WaitInv(c, s, t); }
    else if pc.BEnter? { StepIsLive(c, s, t); EnterInv(c, s, t); }
    else if pc.BBroadcast? { BroadcastInv(c, s, t); }
    else if QuietBarrierPc(pc) { BarrierQuietInv(c, s, t); }
    else if pc.RSignal? { SignalInv(c, s, t, w); }
    else if pc.RUnlock? && t == 0 { LeaveInv(c, s, w); }
    else { JobQuietInv(c, s, t, w); }
  }

  lemma StepIsLive(c: Config, s: State, t: nat)
    requires Inv(c, s) && t < c.n && WorkPc(s.thr[t].pc)
    ensures s.alive
  {
    assert LocalIn(c, s, t);
  }

  lemma SpuriousInv(c: Config, s: State, t: nat)
    requires Inv(c, s) && t < c.n && Asleep(s.thr[t].pc)
    ensures Inv(c, Goto(s, t, Woken(s.thr[t].pc)))
  {
    SpuriousLocals(c, s, t);
    SpuriousSync(c, s, t);
    KeepBarrier(c, s, Goto(s, t, Woken(s.thr[t].pc)));
  }

  lemma SpuriousLocals(c: Config, s: State, t: nat)
    requires Sizes(c, s) && Locals(c, s) && Roles(c, s) && t < c.n && Asleep(s.thr[t].pc)
    ensures var s' := Goto(s, t, Woken(s.thr[t].pc));
            && ViewOf(c, s') == ViewOf(c, s) && StepLive(c, s') == StepLive(c, s)
            && Locals(c, s') && Roles(c, s')
            && forall u | 0 <= u < c.n :: PlaceIn(c, s', u) == PlaceIn(c, s, u)
  {
    var s' := Goto(s, t, Woken(s.thr[t].pc));
    SimilarView(c, s, s');
    forall u | 0 <= u < c.n
      ensures LocalIn(c, s', u) && PlaceIn(c, s', u) == PlaceIn(c, s, u)
    {
      assert LocalIn(c, s, u);
      SimilarLocal(c, ViewOf(c, s), s.slots, u, s.thr[u], s'.thr[u], s.box[u], s.box[u]);
      SimilarPlace(c, ViewOf(c, s), s.bar.phase, u, s.thr[u], s'.thr[u], s.box[u], s.box[u]);
    }
  }

  lemma SpuriousSync(c: Config, s: State, t: nat)
    requires Sizes(c, s) && t < c.n && Asleep(s.thr[t].pc) && Owners(c, s) && Wakes(c, s)
    ensures Owners(c, Goto(s, t, Woken(s.thr[t].pc))) && Wakes(c, Goto(s, t, Woken(s.thr[t].pc)))
  {
    var s' := Goto(s, t, Woken(s.thr[t].pc));
    forall u | 0 <= u < c.n
      ensures HolderOwns(c, s', u) && OwnerHolds(c, s', u) && WakeOk(c, s', u)
    {
      assert HolderOwns(c, s, u) && OwnerHolds(c, s, u) && WakeOk(c, s, u);
    }
  }

  /** Reachable states satisfy the invariant, unless queue_work has just aborted. */
  predicate Safe(c: Config, s: State) {
    Inv(c, s) || (s.failed && Inv(c, s.(failed := false)) && AboutToAbort(c, s))
  }

  lemma StepSafe(c: Config, s: State, l: Label, s': State)
    requires WellFormed(c) && Safe(c, s) && Next(c, s, l, s')
    ensures Inv(c, s) && Safe(c, s')
    ensures s'.failed ==> AboutToAbort(c, s) && s' == s.(failed := true)
  {
    match l
    case Run(t, w) =>
      if CtlPc(s.thr[t].pc) {
        ControllerStepInv(c, s, w);
        if AboutToAbort(c, s) {
          assert s'.(failed := false) == s;
        }
      } else {
        WorkerStepInv(c, s, t, w);
      }
    case Spurious(t) =>
      SpuriousInv(c, s, t);
  }

  lemma {:induction false} StateSafe(c: Config, states: seq<State>, labels: seq<Label>, j: nat)
    requires WellFormed(c) && IsRun(c, states, labels) && j <= |labels|
    ensures Safe(c, states[j])
  {
    if j == 0 {
      StartInv(c);
    } else {
      StateSafe(c, states, labels, j - 1);
      assert Next(c, states[j - 1], labels[j - 1], states[j]);
      StepSafe(c, states[j - 1], labels[j - 1], states[j]);
    }
  }

  /** Main safety theorem: for any number of threads, any rounds and any
      interleaving, every state of every run is safe. */
  lemma RunSafe(c: Config, states: seq<State>, labels: seq<Label>)
    requires WellFormed(c) && IsRun(c, states, labels)
    ensures forall j | 0 <= j < |states| :: Safe(c, states[j])
  {
    forall j | 0 <= j < |states|
      ensures Safe(c, states[j])
    {
      StateSafe(c, states, labels, j);
    }
  }
}
