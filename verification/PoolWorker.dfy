/** Every worker step keeps the invariant. */
module PoolWorker {
  import opened Sync
  import opened Pool
  import opened PoolInvariant
  import opened PoolFrames
  import opened PoolQuiet

  /** What being enabled means for a worker step. */
  predicate Runnable(pc: PC, b: Mailbox, o: Option<nat>) {
    && !Asleep(pc)
    && (pc.WStartLock? || pc.WLock? || pc.WReacq? || pc.RLock? ==> b.owner == None)
    && (pc.BLock? || pc.BReacq? ==> o == None)
  }

  /** What holding means for a worker. */
  predicate Holding(t: nat, th: Thread, b: Mailbox, o: Option<nat>) {
    && !CtlPc(th.pc)
    && (HeldBox([], t, th).Some? ==> b.owner == Some(t))
    && (HoldsBarrier(th.pc) ==> o == Some(t))
  }

  predicate MayStep(c: Config, s: State, t: nat) {
    Sizes(c, s) && t < c.n && Runnable(s.thr[t].pc, s.box[t], s.bar.owner)
  }

  lemma WorkerHolds(c: Config, s: State, t: nat)
    requires Sizes(c, s) && t < c.n && Owners(c, s) && !CtlPc(s.thr[t].pc)
    ensures Holding(t, s.thr[t], s.box[t], s.bar.owner)
  {
    assert HolderOwns(c, s, t);
  }

  lemma WaitLocks(t: nat, th: Thread, b: Mailbox, o: Option<nat>, phase: nat)
    requires Runnable(th.pc, b, o) && Holding(t, th, b, o)
    requires PrePc(th.pc) || th.pc.WUnlock?
    ensures LocksOk(t, th, b, o, WaitThread(th, b), WaitBox(t, th.pc, b), o)
    ensures SleepsOk(t, phase, th, b, WaitThread(th, b), WaitBox(t, th.pc, b))
    ensures WorkerMove(th, WaitThread(th, b))
  {
  }

  lemma BarrierLocks(t: nat, th: Thread, b: Mailbox, bar: Barrier)
    requires Runnable(th.pc, b, bar.owner) && Holding(t, th, b, bar.owner)
    requires QuietBarrierPc(th.pc)
    ensures LocksOk(t, th, b, bar.owner, BarrierThread(th, bar), b, BarrierPart(t, th, bar).owner)
    ensures SleepsOk(t, bar.phase, th, b, BarrierThread(th, bar), b)
    ensures WorkerMove(th, BarrierThread(th, bar)) && !th.pc.BBroadcast?
    ensures BarrierPart(t, th, bar) == bar.(owner := BarrierPart(t, th, bar).owner)
  {
  }

  lemma JobLocks(t: nat, th: Thread, b: Mailbox, b': Mailbox, o: Option<nat>, phase: nat, reps: nat)
    requires Runnable(th.pc, b, o) && Holding(t, th, b, o)
    requires QuietJobPc(t, th.pc)
    requires b' == JobBox(t, th, b) || (th.pc.WCall? && b' == b.(run := false))
    ensures LocksOk(t, th, b, o, JobThread(th, reps), b', o)
    ensures SleepsOk(t, phase, th, b, JobThread(th, reps), b')
    ensures WorkerMove(th, JobThread(th, reps))
  {
  }

  lemma EnabledMayStep(c: Config, s: State, t: nat)
    requires Shaped(c, s) && Enabled(c, s, t)
    ensures MayStep(c, s, t)
  {
  }

  // ----- start-up and wait_for_work ------------------------------------------

  lemma IdleLocal(c: Config, v: View, slots: seq<Option<Job>>, phase: nat, t: nat, th: Thread, b: Mailbox)
    requires Local(c, v, slots, t, th, b)
    requires PrePc(th.pc) && !(th.pc.WTest? && b.s == QUEUED)
    requires IndexOf(Group(c, v.round), t) >= 0 ==> !StoppedBefore(c, v.round, t)
    ensures b.s != WORKING
    ensures Local(c, v, slots, t, WaitThread(th, b), WaitBox(t, th.pc, b))
    ensures PlaceOf(c, v, phase, t, WaitThread(th, b), WaitBox(t, th.pc, b)) == PlaceOf(c, v, phase, t, th, b)
  {
    NotWorking(c, v, slots, t, th, b);
    assert IdleMove(th, WaitThread(th, b)) && WaitBox(t, th.pc, b).s == b.s && WaitBox(t, th.pc, b).work == b.work;
  }

  lemma NotWorking(c: Config, v: View, slots: seq<Option<Job>>, t: nat, th: Thread, b: Mailbox)
    requires Local(c, v, slots, t, th, b) && PrePc(th.pc)
    ensures b.s != WORKING
  {
  }

  /** A step that stays at start-up, in the run loop or in wait_for_work, or leaves the loop. */
  predicate IdleMove(th: Thread, th': Thread) {
    (PrePc(th'.pc) || (th.pc.WLoop? && th'.pc.WExit?)) && th'.calls == th.calls && th'.held == th.held
  }

  lemma TakeLocal(c: Config, v: View, slots: seq<Option<Job>>, phase: nat, t: nat, th: Thread, b: Mailbox)
    requires Local(c, v, slots, t, th, b)
    requires (th.pc.WTest? && b.s == QUEUED) || th.pc.WUnlock?
    ensures Local(c, v, slots, t, WaitThread(th, b), WaitBox(t, th.pc, b))
    ensures PlaceOf(c, v, phase, t, WaitThread(th, b), WaitBox(t, th.pc, b)) == PlaceOf(c, v, phase, t, th, b)
  {
  }

  /** None of wait_for_work's assertions fails, and a queued worker does not leave
      its run loop. */
  lemma WaitLocal(c: Config, v: View, slots: seq<Option<Job>>, phase: nat, t: nat, th: Thread, b: Mailbox)
    requires Local(c, v, slots, t, th, b)
    requires PrePc(th.pc) || th.pc.WUnlock?
    requires IndexOf(Group(c, v.round), t) >= 0 ==> !StoppedBefore(c, v.round, t)
    ensures !(th.pc.WLock? && b.s == WORKING)
    ensures Local(c, v, slots, t, WaitThread(th, b), WaitBox(t, th.pc, b))
    ensures PlaceOf(c, v, phase, t, WaitThread(th, b), WaitBox(t, th.pc, b)) == PlaceOf(c, v, phase, t, th, b)
  {
    if (th.pc.WTest? && b.s == QUEUED) || th.pc.WUnlock? {
      TakeLocal(c, v, slots, phase, t, th, b);
    } else {
      IdleLocal(c, v, slots, phase, t, th, b);
    }
  }

  lemma MemberRuns(c: Config, r: nat, t: nat)
    requires WellFormed(c)
    ensures IndexOf(Group(c, r), t) >= 0 ==> !StoppedBefore(c, r, t)
  {
  }

  lemma WaitInv(c: Config, s: State, t: nat)
    requires Inv(c, s) && MayStep(c, s, t)
    requires IndexOf(Group(c, s.round), t) >= 0 ==> !StoppedBefore(c, s.round, t)
    requires PrePc(s.thr[t].pc) || s.thr[t].pc.WUnlock?
    ensures Inv(c, WaitStep(s, t))
  {
    var th', b' := WaitThread(s.thr[t], s.box[t]), WaitBox(t, s.thr[t].pc, s.box[t]);
    WaitParts(c, s, t);
    QuietInv(c, s, t, th', b', s.bar.owner);
  }

  lemma WaitParts(c: Config, s: State, t: nat)
    requires MayStep(c, s, t) && LocalIn(c, s, t) && Owners(c, s)
    requires IndexOf(Group(c, s.round), t) >= 0 ==> !StoppedBefore(c, s.round, t)
    requires PrePc(s.thr[t].pc) || s.thr[t].pc.WUnlock?
    ensures var th', b' := WaitThread(s.thr[t], s.box[t]), WaitBox(t, s.thr[t].pc, s.box[t]);
            && QuietOk(c, s, t, th', b', s.bar.owner)
            && WaitStep(s, t) == Quiet(s, t, th', b', s.bar.owner)
  {
    WorkerHolds(c, s, t);
    WaitLocks(t, s.thr[t], s.box[t], s.bar.owner, s.bar.phase);
    WaitLocal(c, ViewOf(c, s), s.slots, s.bar.phase, t, s.thr[t], s.box[t]);
  }

  // ----- the barrier ------------------------------------------------------------

  predicate QuietBarrierPc(pc: PC) {
    pc.WInit? || pc.BLock? || pc.BSerialUnlock? || pc.BReacq? || pc.BTest? || pc.BUnlock?
  }

  lemma BarrierLocal(c: Config, v: View, slots: seq<Option<Job>>, bar: Barrier, t: nat, th: Thread, b: Mailbox)
    requires Local(c, v, slots, t, th, b)
    requires QuietBarrierPc(th.pc)
    ensures Local(c, v, slots, t, BarrierThread(th, bar), b)
    ensures PlaceOf(c, v, bar.phase, t, BarrierThread(th, bar), b) == PlaceOf(c, v, bar.phase, t, th, b)
  {
  }

  lemma BarrierIsQuiet(s: State, t: nat)
    requires t < |s.thr| == |s.box| && QuietBarrierPc(s.thr[t].pc)
    requires BarrierPart(t, s.thr[t], s.bar) == s.bar.(owner := BarrierPart(t, s.thr[t], s.bar).owner)
    ensures BarrierStep(s, t) == Quiet(s, t, BarrierThread(s.thr[t], s.bar), s.box[t], BarrierPart(t, s.thr[t], s.bar).owner)
  {
  }

  lemma BarrierQuietInv(c: Config, s: State, t: nat)
    requires Inv(c, s) && MayStep(c, s, t)
    requires QuietBarrierPc(s.thr[t].pc)
    ensures Inv(c, BarrierStep(s, t))
  {
    assert LocalIn(c, s, t);
    WorkerHolds(c, s, t);
    BarrierLocks(t, s.thr[t], s.box[t], s.bar);
    BarrierLocal(c, ViewOf(c, s), s.slots, s.bar, t, s.thr[t], s.box[t]);
    QuietInv(c, s, t, BarrierThread(s.thr[t], s.bar), s.box[t], BarrierPart(t, s.thr[t], s.bar).owner);
    BarrierIsQuiet(s, t);
  }

  // ----- the repetition loop and return_finished_work ----------------------------

  predicate QuietJobPc(t: nat, pc: PC) {
    pc.WRep? || pc.WCall? || pc.RLock? || pc.RSet? || (pc.RUnlock? && t != 0)
  }

  /** The work pointer still leads to the job that was queued, the assertions of
      return_finished_work hold, and a stop job names its own thread. */
  lemma LoopLocal(c: Config, v: View, slots: seq<Option<Job>>, phase: nat, t: nat, th: Thread, b: Mailbox, job: Job, b': Mailbox)
    requires Local(c, v, slots, t, th, b)
    requires th.pc.WRep? || th.pc.WCall?
    requires v.round < |c.rounds| && (c.rounds[v.round].stop ==> c.rounds[v.round].reps == 1)
    requires !StoppedBefore(c, v.round, t)
    requires job == if th.held < |slots| && slots[th.held].Some? then slots[th.held].value else Job(0, None)
    requires b' == if th.pc.WCall? && job.stop.Some? then b.(run := false) else b
    ensures th.pc.WCall? && job.stop.Some? ==> job.stop.value == t
    ensures Local(c, v, slots, t, JobThread(th, job.reps), b')
    ensures PlaceOf(c, v, phase, t, JobThread(th, job.reps), b') == PlaceOf(c, v, phase, t, th, b)
  {
  }

  lemma ReturnLocal(c: Config, v: View, slots: seq<Option<Job>>, phase: nat, t: nat, th: Thread, b: Mailbox, reps: nat)
    requires Local(c, v, slots, t, th, b)
    requires th.pc.RLock? || th.pc.RSet? || (th.pc.RUnlock? && t != 0)
    ensures th.pc.RSet? ==> CanReturn(b)
    ensures Local(c, v, slots, t, JobThread(th, reps), JobBox(t, th, b))
    ensures PlaceOf(c, v, phase, t, JobThread(th, reps), JobBox(t, th, b)) == PlaceOf(c, v, phase, t, th, b)
  {
  }

  lemma JobLocal(c: Config, v: View, slots: seq<Option<Job>>, phase: nat, t: nat, th: Thread, b: Mailbox, job: Job, b': Mailbox)
    requires Local(c, v, slots, t, th, b)
    requires QuietJobPc(t, th.pc)
    requires v.round < |c.rounds| && (c.rounds[v.round].stop ==> c.rounds[v.round].reps == 1)
    requires !StoppedBefore(c, v.round, t)
    requires job == if th.held < |slots| && slots[th.held].Some? then slots[th.held].value else Job(0, None)
    requires b' == if th.pc.WCall? && job.stop.Some? then b.(run := false) else JobBox(t, th, b)
    ensures th.pc.WCall? && job.stop.Some? ==> job.stop.value == t
    ensures th.pc.RSet? ==> CanReturn(b)
    ensures Local(c, v, slots, t, JobThread(th, job.reps), b')
    ensures PlaceOf(c, v, phase, t, JobThread(th, job.reps), b') == PlaceOf(c, v, phase, t, th, b)
  {
    if th.pc.WRep? || th.pc.WCall? {
      LoopLocal(c, v, slots, phase, t, th, b, job, b');
    } else {
      ReturnLocal(c, v, slots, phase, t, th, b, job.reps);
    }
  }

  lemma JobIsQuiet(c: Config, s: State, t: nat, w: nat, b': Mailbox)
    requires Sizes(c, s) && t < c.n && QuietJobPc(t, s.thr[t].pc)
    requires var job := JobRead(s, s.thr[t]);
             && b' == (if s.thr[t].pc.WCall? && job.stop.Some? then s.box[t].(run := false) else JobBox(t, s.thr[t], s.box[t]))
             && (s.thr[t].pc.WCall? && job.stop.Some? ==> job.stop.value == t)
             && (s.thr[t].pc.RSet? ==> CanReturn(s.box[t]))
    ensures JobStep(c, s, t, w) == Quiet(s, t, JobThread(s.thr[t], JobRead(s, s.thr[t]).reps), b', s.bar.owner)
  {
    assert s.box[t := s.box[t]][t := b'] == s.box[t := b'];
  }

  lemma JobQuietInv(c: Config, s: State, t: nat, w: nat)
    requires Inv(c, s) && MayStep(c, s, t)
    requires s.round < |c.rounds| && (c.rounds[s.round].stop ==> c.rounds[s.round].reps == 1)
    requires !StoppedBefore(c, s.round, t)
    requires QuietJobPc(t, s.thr[t].pc)
    requires s.thr[t].pc.WCall? ==> var j := JobRead(s, s.thr[t]); j.stop.Some? ==> j.stop.value < |s.box|
    ensures Inv(c, JobStep(c, s, t, w))
  {
    JobParts(c, s, t, w);
    QuietInv(c, s, t, JobThread(s.thr[t], JobRead(s, s.thr[t]).reps), NextJobBox(s, t), s.bar.owner);
  }

  function NextJobBox(s: State, t: nat): Mailbox
    requires t < |s.thr| == |s.box|
  {
    if s.thr[t].pc.WCall? && JobRead(s, s.thr[t]).stop.Some? then s.box[t].(run := false) else JobBox(t, s.thr[t], s.box[t])
  }

  lemma JobParts(c: Config, s: State, t: nat, w: nat)
    requires MayStep(c, s, t) && LocalIn(c, s, t) && Owners(c, s) && QuietJobPc(t, s.thr[t].pc)
    requires s.round < |c.rounds| && (c.rounds[s.round].stop ==> c.rounds[s.round].reps == 1)
    requires !StoppedBefore(c, s.round, t)
    requires s.thr[t].pc.WCall? ==> var j := JobRead(s, s.thr[t]); j.stop.Some? ==> j.stop.value < |s.box|
    ensures var th' := JobThread(s.thr[t], JobRead(s, s.thr[t]).reps);
            && QuietOk(c, s, t, th', NextJobBox(s, t), s.bar.owner)
            && JobStep(c, s, t, w) == Quiet(s, t, th', NextJobBox(s, t), s.bar.owner)
  {
    JobLocksIn(c, s, t);
    JobLocal(c, ViewOf(c, s), s.slots, s.bar.phase, t, s.thr[t], s.box[t], JobRead(s, s.thr[t]), NextJobBox(s, t));
    JobIsQuiet(c, s, t, w, NextJobBox(s, t));
  }

  lemma JobLocksIn(c: Config, s: State, t: nat)
    requires MayStep(c, s, t) && Owners(c, s) && QuietJobPc(t, s.thr[t].pc)
    ensures var th' := JobThread(s.thr[t], JobRead(s, s.thr[t]).reps);
            && LocksOk(t, s.thr[t], s.box[t], s.bar.owner, th', NextJobBox(s, t), s.bar.owner)
            && SleepsOk(t, s.bar.phase, s.thr[t], s.box[t], th', NextJobBox(s, t))
            && WorkerMove(s.thr[t], th')
  {
    WorkerHolds(c, s, t);
    JobLocks(t, s.thr[t], s.box[t], NextJobBox(s, t), s.bar.owner, s.bar.phase, JobRead(s, s.thr[t]).reps);
  }

  lemma WorkingInRound(c: Config, s: State, t: nat)
    requires Inv(c, s) && t < c.n
    requires WorkPc(s.thr[t].pc) || ReturnedPc(s.thr[t].pc)
    ensures s.round < |c.rounds|
    ensures IndexOf(Group(c, s.round), t) >= 0
  {
    assert LocalIn(c, s, t);
    LocalInRound(c, ViewOf(c, s), s.slots, t, s.thr[t], s.box[t]);
  }

  lemma LocalInRound(c: Config, v: View, slots: seq<Option<Job>>, t: nat, th: Thread, b: Mailbox)
    requires Local(c, v, slots, t, th, b) && (WorkPc(th.pc) || ReturnedPc(th.pc))
    ensures v.round < |c.rounds| && IndexOf(Group(c, v.round), t) >= 0
  {
  }
}
