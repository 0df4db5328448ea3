/** The signal of return_finished_work, and the dirigent's way back to the
    controller. */
module PoolReturn {
  import opened Sync
  import opened Pool
  import opened PoolInvariant
  import opened PoolFrames
  import opened PoolWorker

  // ----- pthread_cond_signal in return_finished_work ------------------------------

  lemma SignalShape(c: Config, s: State, t: nat, w: nat)
    requires Sizes(c, s) && t < c.n && s.thr[t].pc.RSignal?
    requires AsleepOn(c, s, 0, t) ==> AsleepOn(c, s, w, t)
    ensures var s' := JobStep(c, s, t, w);
            && Touches(c, s, s', t) && s'.box == s.box && s'.bar == s.bar && s'.slots == s.slots
            && s'.alive == s.alive && s'.joined == s.joined && s'.failed == s.failed
            && s'.thr[t] == s.thr[t].(pc := RUnlock)
            && ViewOf(c, s') == ViewOf(c, s) && StepLive(c, s') == StepLive(c, s)
            && !AsleepOn(c, s', 0, t)
  {
    assert !AsleepOn(c, s, t, t);
  }

  lemma SignalLocal(c: Config, v: View, slots: seq<Option<Job>>, phase: nat, t: nat, th: Thread, b: Mailbox)
    requires Local(c, v, slots, t, th, b) && th.pc.RSignal?
    ensures Local(c, v, slots, t, th.(pc := RUnlock), b)
    ensures PlaceOf(c, v, phase, t, th.(pc := RUnlock), b) == PlaceOf(c, v, phase, t, th, b)
  {
  }

  lemma SignalOwners(c: Config, s: State, t: nat, w: nat)
    requires Sizes(c, s) && t < c.n && s.thr[t].pc.RSignal? && Owners(c, s)
    requires AsleepOn(c, s, 0, t) ==> AsleepOn(c, s, w, t)
    ensures Owners(c, JobStep(c, s, t, w))
  {
    SignalShape(c, s, t, w);
    assert HolderOwns(c, s, t);
    forall i | 0 <= i < c.n
      ensures Some(i) == HeldBox(Group(c, s.round), t, s.thr[t]) ==> s.box[i].owner == Some(t)
    {
    }
    KeepOwnersBox(c, s, JobStep(c, s, t, w), t);
  }

  lemma SignalWakes(c: Config, s: State, t: nat, w: nat)
    requires Sizes(c, s) && t < c.n && s.thr[t].pc.RSignal? && Wakes(c, s) && Owners(c, s)
    requires AsleepOn(c, s, 0, t) ==> AsleepOn(c, s, w, t)
    ensures Wakes(c, JobStep(c, s, t, w))
  {
    var s' := JobStep(c, s, t, w);
    SignalShape(c, s, t, w);
    forall u | 0 <= u < c.n
      ensures WakeOk(c, s', u)
    {
      assert WakeOk(c, s, u);
      if s.bar.owner.Some? {
        assert HoldsBarrier(s.thr[s.bar.owner.value].pc);
      }
    }
  }

  lemma SignalBarrier(c: Config, s: State, t: nat, w: nat)
    requires Sizes(c, s) && t < c.n && s.thr[t].pc.RSignal? && BarrierOk(c, s)
    requires PlaceOf(c, ViewOf(c, s), s.bar.phase, t, s.thr[t].(pc := RUnlock), s.box[t]) == PlaceIn(c, s, t)
    requires AsleepOn(c, s, 0, t) ==> AsleepOn(c, s, w, t)
    ensures BarrierOk(c, JobStep(c, s, t, w))
  {
    var s' := JobStep(c, s, t, w);
    SignalShape(c, s, t, w);
    KeepPlaces(c, s, s', t);
    KeepBarrier(c, s, s');
  }

  lemma SignalController(c: Config, s: State, t: nat, w: nat)
    requires Sizes(c, s) && t < c.n && s.thr[t].pc.RSignal? && ControllerOk(c, s)
    requires AsleepOn(c, s, 0, t) ==> AsleepOn(c, s, w, t)
    ensures ControllerOk(c, JobStep(c, s, t, w))
  {
    SignalShape(c, s, t, w);
  }

  lemma SignalInv(c: Config, s: State, t: nat, w: nat)
    requires Inv(c, s) && t < c.n && s.thr[t].pc.RSignal?
    requires AsleepOn(c, s, 0, t) ==> AsleepOn(c, s, w, t)
    ensures Inv(c, JobStep(c, s, t, w))
  {
    var s' := JobStep(c, s, t, w);
    assert LocalIn(c, s, t);
    SignalShape(c, s, t, w);
    SignalLocal(c, ViewOf(c, s), s.slots, s.bar.phase, t, s.thr[t], s.box[t]);
    SignalOwners(c, s, t, w);
    SignalWakes(c, s, t, w);
    SignalBarrier(c, s, t, w);
    SignalController(c, s, t, w);
    KeepLocals(c, s, s', t);
    KeepRoles(c, s, s', t);
  }

  // ----- the dirigent leaves worker() -------------------------------------------------

  /** The view after the dirigent's return: a pair round gives up slot 0. */
  lemma LeaveView(c: Config, s: State, w: nat)
    requires Sizes(c, s) && s.thr[0].pc.RUnlock? && s.round < |c.rounds|
    ensures var s' := JobStep(c, s, 0, w);
            var k := FirstCollected(c, s.round);
            && ViewOf(c, s) == View(s.round, 0, |Group(c, s.round)|, StuckBefore(c, s.round))
            && ViewOf(c, s') == View(s.round, if k < |Group(c, s.round)| then k else |Group(c, s.round)|,
                                     |Group(c, s.round)|, StuckBefore(c, s.round) || c.rounds[s.round].pair)
            && CtlPc(s'.thr[0].pc) && (k < |Group(c, s.round)| ==> CollectingPc(s'.thr[0].pc)) && s'.thr[0].calls == s.thr[0].calls
  {
  }

  lemma LeaveOther(c: Config, v: View, v': View, slots: seq<Option<Job>>, phase: nat, t: nat, th: Thread, b: Mailbox)
    requires Local(c, v, slots, t, th, b)
    requires t != 0 && v.round < |c.rounds|
    requires v.lo == 0 && v'.lo <= 1 && v' == v.(lo := v'.lo, stuck := v'.stuck)
    requires v'.lo == 1 ==> |c.rounds[v.round].group| > 0 && c.rounds[v.round].group[0] == 0
    ensures Local(c, v', slots, t, th, b)
    ensures PlaceOf(c, v', phase, t, th, b) == PlaceOf(c, v, phase, t, th, b)
  {
  }

  lemma LeaveDirigent(c: Config, v: View, v': View, slots: seq<Option<Job>>, phase: nat, th: Thread, b: Mailbox, th': Thread)
    requires Local(c, v, slots, 0, th, b) && th.pc.RUnlock?
    requires v.round < |c.rounds|
    requires v.lo == 0 && v'.lo <= 1 && v' == v.(lo := v'.lo, stuck := v'.stuck)
    requires v'.lo == 1 ==> v'.stuck
    requires IndexOf(c.rounds[v.round].group, 0) == 0
    requires CtlPc(th'.pc) && th'.calls == th.calls && (v'.lo == 0 ==> CollectingPc(th'.pc))
    requires !c.rounds[v.round].stop && !StoppedBefore(c, v.round, 0)
    ensures Local(c, v', slots, 0, th', b.(owner := None))
    ensures PlaceOf(c, v', phase, 0, th', b.(owner := None)) == PlaceOf(c, v, phase, 0, th, b)
  {
  }

  lemma LeaveLocalOther(c: Config, s: State, w: nat, u: nat)
    requires Sizes(c, s) && s.thr[0].pc.RUnlock? && s.round < |c.rounds|
    requires 0 < u < c.n && LocalIn(c, s, u)
    requires RoundOk(c.n, c.rounds[s.round]) && c.rounds[s.round].group[0] == 0
    ensures LocalIn(c, JobStep(c, s, 0, w), u)
    ensures PlaceIn(c, JobStep(c, s, 0, w), u) == PlaceIn(c, s, u)
  {
    LeaveView(c, s, w);
    LeaveOther(c, ViewOf(c, s), ViewOf(c, JobStep(c, s, 0, w)), s.slots, s.bar.phase, u, s.thr[u], s.box[u]);
  }

  lemma LeaveLocalDirigent(c: Config, s: State, w: nat)
    requires Sizes(c, s) && s.thr[0].pc.RUnlock? && s.round < |c.rounds|
    requires LocalIn(c, s, 0)
    requires IndexOf(c.rounds[s.round].group, 0) == 0 && !c.rounds[s.round].stop && !StoppedBefore(c, s.round, 0)
    ensures LocalIn(c, JobStep(c, s, 0, w), 0)
    ensures PlaceIn(c, JobStep(c, s, 0, w), 0) == PlaceIn(c, s, 0)
  {
    var s' := JobStep(c, s, 0, w);
    LeaveView(c, s, w);
    LeaveDirigent(c, ViewOf(c, s), ViewOf(c, s'), s.slots, s.bar.phase, s.thr[0], s.box[0], s'.thr[0]);
  }

  lemma LeaveOwners(c: Config, s: State, w: nat)
    requires Sizes(c, s) && s.thr[0].pc.RUnlock? && s.round < |c.rounds|
    requires Owners(c, s)
    ensures Owners(c, JobStep(c, s, 0, w))
  {
    assert HolderOwns(c, s, 0);
    KeepOwnersBox(c, s, JobStep(c, s, 0, w), 0);
  }

  lemma LeaveWakes(c: Config, s: State, w: nat)
    requires Sizes(c, s) && s.thr[0].pc.RUnlock? && s.round < |c.rounds|
    requires Owners(c, s) && Wakes(c, s) && Owners(c, JobStep(c, s, 0, w))
    ensures Wakes(c, JobStep(c, s, 0, w))
  {
    KeepWakes(c, s, JobStep(c, s, 0, w), 0);
  }

  lemma LeaveController(c: Config, s: State, w: nat)
    requires Sizes(c, s) && s.thr[0].pc.RUnlock? && s.round < |c.rounds|
    requires ControllerOk(c, s) && RoundOk(c.n, c.rounds[s.round])
    ensures ControllerOk(c, JobStep(c, s, 0, w))
  {
  }

  lemma LeaveLocals(c: Config, s: State, w: nat)
    requires Sizes(c, s) && s.thr[0].pc.RUnlock? && s.round < |c.rounds| && Locals(c, s)
    requires RoundOk(c.n, c.rounds[s.round]) && c.rounds[s.round].group[0] == 0 && !StoppedBefore(c, s.round, 0)
    ensures Sizes(c, JobStep(c, s, 0, w)) && Locals(c, JobStep(c, s, 0, w))
    ensures forall u | 0 <= u < c.n :: PlaceIn(c, JobStep(c, s, 0, w), u) == PlaceIn(c, s, u)
  {
    var s' := JobStep(c, s, 0, w);
    IndexUnique(c.rounds[s.round].group, 0);
    forall u | 0 <= u < c.n
      ensures LocalIn(c, s', u) && PlaceIn(c, s', u) == PlaceIn(c, s, u)
    {
      assert LocalIn(c, s, u);
      if u == 0 { LeaveLocalDirigent(c, s, w); } else { LeaveLocalOther(c, s, w, u); }
    }
  }

  lemma LeaveInv(c: Config, s: State, w: nat)
    requires Inv(c, s) && s.thr[0].pc.RUnlock? && s.round < |c.rounds|
    requires RoundOk(c.n, c.rounds[s.round]) && !StoppedBefore(c, s.round, 0)
    ensures Inv(c, JobStep(c, s, 0, w))
  {
    LeaveLocals(c, s, w);
    LeaveOwners(c, s, w);
    LeaveWakes(c, s, w);
    LeaveController(c, s, w);
    KeepBarrier(c, s, JobStep(c, s, 0, w));
  }
}
