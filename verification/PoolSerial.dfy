/** Rounds with one member: what run_one_by_one and stop_workers consist of. */
module PoolSerial {
  import opened Sync
  import opened Pool
  import opened PoolInvariant
  import opened PoolController
  import opened PoolSafety
  import opened PoolTermination
  import opened PoolGuarantees

  // ----- at most one mailbox in use -----------------------------------------------------

  /** Mailbox 0 was left DONE, by an earlier round or by this one. */
  predicate DirigentLeft(c: Config, r: nat) {
    StuckBefore(c, r) || (r < |c.rounds| && c.rounds[r].pair)
  }

  lemma BusyIsMember(c: Config, v: View, slots: seq<Option<Job>>, t: nat, th: Thread, b: Mailbox)
    requires Local(c, v, slots, t, th, b) && b.s != IDLE
    ensures t in Group(c, v.round) || (t == 0 && v.stuck)
  {
  }

  /** In a round with one member no two mailboxes are in use, not counting that of a
      dirigent left behind by run_two_benchmarks. */
  lemma SerialOneBusy(c: Config, states: seq<State>, labels: seq<Label>, j: nat, t: nat, u: nat)
    requires WellFormed(c) && IsRun(c, states, labels) && j <= |labels| && t < c.n && u < c.n && t != u
    requires |Group(c, states[j].round)| <= 1
    ensures Sizes(c, states[j])
    ensures states[j].box[t].s == IDLE || states[j].box[u].s == IDLE ||
            ((t == 0 || u == 0) && DirigentLeft(c, states[j].round))
  {
    ReachedBusy(c, states, labels, j, t);
    ReachedBusy(c, states, labels, j, u);
  }

  lemma ReachedBusy(c: Config, states: seq<State>, labels: seq<Label>, j: nat, t: nat)
    requires WellFormed(c) && IsRun(c, states, labels) && j <= |labels| && t < c.n
    ensures Sizes(c, states[j])
    ensures states[j].box[t].s != IDLE ==> t in Group(c, states[j].round) || (t == 0 && DirigentLeft(c, states[j].round))
  {
    ReachedLocal(c, states, labels, j, t);
    var s := states[j];
    if s.box[t].s != IDLE { BusyIsMember(c, ViewOf(c, s), s.slots, t, s.thr[t], s.box[t]); }
  }

  // ----- nobody waits at the barrier ------------------------------------------------------

  predicate NobodyWaits(s: State) {
    forall t | 0 <= t < |s.thr| :: !WaitingPc(s.thr[t].pc)
  }

  lemma SerialCompletes(c: Config, s: State, t: nat)
    requires Inv(c, s) && |Group(c, s.round)| <= 1 && t < c.n && s.thr[t].pc.BEnter?
    ensures Completes(s.bar)
  {
    StepIsLive(c, s, t);
  }

  /** A controller step gives thread 0 a counter outside the barrier and leaves the
      others where they are or awake. */
  lemma SerialController(c: Config, s: State, w: nat)
    requires CtlShaped(c, s) && NobodyWaits(s)
    ensures NobodyWaits(ControllerStep(c, s, w))
  {
    var th := s.thr[0];
    if !th.pc.CDone? && !th.pc.CInit? && !th.pc.CFree? {
      var i := c.rounds[s.round].group[th.k];
      var th' := CtlThread(c, s.round, th, s.box[i]);
      assert !WaitingPc(th'.pc);
      var s1 := s.(thr := s.thr[0 := th'], box := s.box[i := CtlBox(th, s.box[i])]);
      assert NobodyWaits(s1);
      SerialSignal(c, s1, i, w);
    }
  }

  lemma SerialSignal(c: Config, s: State, i: nat, w: nat)
    requires NobodyWaits(s)
    ensures NobodyWaits(Signal(c, s, i, w))
  {
  }

  lemma SerialWait(s: State, t: nat)
    requires t < |s.thr| == |s.box| && NobodyWaits(s)
    ensures NobodyWaits(WaitStep(s, t))
  {
  }

  lemma SerialBarrier(s: State, t: nat)
    requires t < |s.thr| && NobodyWaits(s) && (s.thr[t].pc.BEnter? ==> Completes(s.bar))
    ensures NobodyWaits(BarrierStep(s, t))
  {
  }

  lemma SerialJob(c: Config, s: State, t: nat, w: nat)
    requires Sizes(c, s) && t < c.n && NobodyWaits(s)
    requires s.thr[t].pc.WCall? ==> var j := JobRead(s, s.thr[t]); j.stop.Some? ==> j.stop.value < |s.box|
    ensures NobodyWaits(JobStep(c, s, t, w))
  {
    var th := s.thr[t];
    var th' := JobThread(th, JobRead(s, th).reps);
    assert !WaitingPc(th'.pc);
    var s1 := s.(thr := s.thr[t := th'], box := s.box[t := JobBox(t, th, s.box[t])]);
    assert NobodyWaits(s1);
    SerialSignal(c, s1, t, w);
  }

  lemma SerialStep(c: Config, s: State, l: Label, s': State)
    requires Inv(c, s) && NobodyWaits(s) && Next(c, s, l, s')
    requires l.Run? && s.thr[l.t].pc.BEnter? ==> |Group(c, s.round)| <= 1
    ensures NobodyWaits(s')
  {
    match l
    case Run(t, w) =>
      var pc := s.thr[t].pc;
      if pc.BEnter? { SerialCompletes(c, s, t); }
      if CtlPc(pc) { SerialController(c, s, w); }
      else if PrePc(pc) || pc.WUnlock? { SerialWait(s, t); }
      else if pc.WRep? || pc.WCall? || pc.RLock? || pc.RSet? || ReturnedPc(pc) { SerialJob(c, s, t, w); }
      else { SerialBarrier(s, t); }
    case Spurious(t) =>
  }

  // ----- from round to round ----------------------------------------------------------------

  lemma ControllerKeepsRound(c: Config, s: State, w: nat)
    requires CtlShaped(c, s) && !s.thr[0].pc.CFree?
    ensures ControllerStep(c, s, w).round == s.round
  {
  }

  lemma JobKeepsRound(c: Config, s: State, t: nat, w: nat)
    requires Sizes(c, s) && t < c.n
    requires s.thr[t].pc.WCall? ==> var j := JobRead(s, s.thr[t]); j.stop.Some? ==> j.stop.value < |s.box|
    ensures JobStep(c, s, t, w).round == s.round
  {
  }

  /** Only the controller's last step of a round goes on to the next. */
  lemma RoundChanges(c: Config, s: State, l: Label, s': State)
    requires Inv(c, s) && Next(c, s, l, s') && s'.round != s.round
    ensures l.Run? && l.t == 0 && s.thr[0].pc.CFree?
  {
    var t := l.t;
    if l.Run? {
      if CtlPc(s.thr[t].pc) {
        if !s.thr[0].pc.CFree? { ControllerKeepsRound(c, s, l.w); }
      } else if s.thr[t].pc.WRep? || s.thr[t].pc.WCall? || s.thr[t].pc.RLock? || s.thr[t].pc.RSet? || ReturnedPc(s.thr[t].pc) {
        JobKeepsRound(c, s, t, l.w);
      }
    }
  }

  /** Between two rounds nobody is inside the barrier. */
  lemma FreeNobodyWaits(c: Config, s: State)
    requires Inv(c, s) && s.thr[0].pc.CFree?
    ensures NobodyWaits(s)
  {
    NobodyWorks(c, s);
  }

  lemma RunStep(c: Config, states: seq<State>, labels: seq<Label>, j: nat)
    requires WellFormed(c) && IsRun(c, states, labels) && j < |labels|
    ensures Inv(c, states[j]) && Next(c, states[j], labels[j], states[j + 1])
  {
    StateSafe(c, states, labels, j);
    StepSafe(c, states[j], labels[j], states[j + 1]);
  }

  /** In a round with one member the barrier never makes anybody wait, whatever the
      rounds before it were. */
  lemma {:induction false} SerialNeverWaits(c: Config, states: seq<State>, labels: seq<Label>, j: nat)
    requires WellFormed(c) && IsRun(c, states, labels) && j <= |labels|
    requires |Group(c, states[j].round)| <= 1
    ensures NobodyWaits(states[j])
    decreases j
  {
    if j > 0 {
      if states[j].round == states[j - 1].round {
        SerialNeverWaits(c, states, labels, j - 1);
      }
      SerialRunStep(c, states, labels, j - 1);
    }
  }

  lemma SerialRunStep(c: Config, states: seq<State>, labels: seq<Label>, j: nat)
    requires WellFormed(c) && IsRun(c, states, labels) && j < |labels|
    requires |Group(c, states[j + 1].round)| <= 1
    requires states[j + 1].round == states[j].round ==> NobodyWaits(states[j])
    ensures NobodyWaits(states[j + 1])
  {
    RunStep(c, states, labels, j);
    SerialNext(c, states[j], labels[j], states[j + 1]);
  }

  lemma SerialNext(c: Config, s: State, l: Label, s': State)
    requires Inv(c, s) && Next(c, s, l, s') && |Group(c, s'.round)| <= 1
    requires s'.round == s.round ==> NobodyWaits(s)
    ensures NobodyWaits(s')
  {
    if s'.round != s.round {
      RoundChanges(c, s, l, s');
      FreeNobodyWaits(c, s);
    }
    SerialStep(c, s, l, s');
  }
}
