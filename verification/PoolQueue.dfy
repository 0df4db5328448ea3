/** The status changes of queue_work and wait_until_done. */
module PoolQueue {
  import opened Sync
  import opened Pool
  import opened PoolInvariant
  import opened PoolFrames
  import opened PoolController

  // ----- queue_work: the assertions and the assignment -------------------------------

  /** The assertions of queue_work fail exactly for a dirigent that was left DONE. */
  lemma PutOutcome(c: Config, s: State)
    requires Sizes(c, s) && InRound(c, s) && s.thr[0].pc.CQSet? && LocalIn(c, s, Target(c, s))
    ensures CanPut(s.box[Target(c, s)]) <==> !(Target(c, s) == 0 && StuckBefore(c, s.round))
  {
    IndexUnique(c.rounds[s.round].group, s.thr[0].k);
  }

  lemma PutOther(c: Config, v: View, v': View, slots: seq<Option<Job>>, phase: nat, t: nat, th: Thread, b: Mailbox, th': Thread)
    requires Local(c, v, slots, t, th, b)
    requires v' == v.(hi := v.hi + 1) && IndexOf(Group(c, v.round), t) != v.hi
    requires th' == th || (t == 0 && QueueingPc(th.pc) && QueueingPc(th'.pc) && th'.calls == th.calls)
    ensures Local(c, v', slots, t, th', b)
    ensures PlaceOf(c, v', phase, t, th', b) == PlaceOf(c, v, phase, t, th, b)
  {
  }

  lemma PutSelf(c: Config, v: View, v': View, slots: seq<Option<Job>>, phase: nat, t: nat, th: Thread, b: Mailbox, th': Thread)
    requires Local(c, v, slots, t, th, b)
    requires v.lo == 0 && v' == v.(hi := v.hi + 1) && v.round < |c.rounds|
    requires IndexOf(Group(c, v.round), t) == v.hi < |slots| && slots[v.hi] == Some(JobOf(c.rounds[v.round], v.hi))
    requires CanPut(b) && !StoppedBefore(c, v.round, t)
    requires if t == 0 then QueueingPc(th'.pc) && th'.calls == th.calls else th' == th
    ensures Local(c, v', slots, t, th', PutWork(b, v.hi))
    ensures PlaceOf(c, v', phase, t, th', PutWork(b, v.hi)) == PlaceOf(c, v, phase, t, th, b)
  {
  }

  lemma PutViews(c: Config, s: State, w: nat)
    requires InRound(c, s) && s.thr[0].pc.CQSet? && CanPut(s.box[Target(c, s)])
    ensures var s' := ControllerStep(c, s, w);
            && ViewOf(c, s) == View(s.round, 0, s.thr[0].k, StuckBefore(c, s.round))
            && ViewOf(c, s') == ViewOf(c, s).(hi := s.thr[0].k + 1)
            && StepLive(c, s') == StepLive(c, s)
            && s'.thr == s.thr[0 := s.thr[0].(pc := CQSignal)]
            && s'.box == s.box[Target(c, s) := PutWork(s.box[Target(c, s)], s.thr[0].k)]
            && s'.bar == s.bar && s'.slots == s.slots && s'.alive == s.alive && s'.round == s.round
            && s'.joined == s.joined && s'.failed == s.failed
  {
  }

  lemma PutLocals(c: Config, s: State, w: nat)
    requires InRound(c, s) && s.thr[0].pc.CQSet? && CanPut(s.box[Target(c, s)])
    requires Locals(c, s) && ControllerOk(c, s) && !StoppedBefore(c, s.round, Target(c, s))
    ensures Locals(c, ControllerStep(c, s, w))
    ensures forall t | 0 <= t < c.n :: PlaceIn(c, ControllerStep(c, s, w), t) == PlaceIn(c, s, t)
  {
    var s' := ControllerStep(c, s, w);
    var g := c.rounds[s.round].group;
    PutViews(c, s, w);
    IndexUnique(g, s.thr[0].k);
    forall t | 0 <= t < c.n
      ensures LocalIn(c, s', t) && PlaceIn(c, s', t) == PlaceIn(c, s, t)
    {
      assert LocalIn(c, s, t);
      if t == Target(c, s) {
        PutSelf(c, ViewOf(c, s), ViewOf(c, s'), s.slots, s.bar.phase, t, s.thr[t], s.box[t], s'.thr[t]);
      } else {
        PutOther(c, ViewOf(c, s), ViewOf(c, s'), s.slots, s.bar.phase, t, s.thr[t], s.box[t], s'.thr[t]);
      }
    }
  }

  lemma PutOwners(c: Config, s: State, w: nat)
    requires InRound(c, s) && s.thr[0].pc.CQSet? && CanPut(s.box[Target(c, s)]) && Owners(c, s)
    ensures Owners(c, ControllerStep(c, s, w))
  {
    var s' := ControllerStep(c, s, w);
    PutViews(c, s, w);
    assert HolderOwns(c, s, 0);
    KeepOwnersBox(c, s, s', 0);
  }

  lemma PutWakes(c: Config, s: State, w: nat)
    requires InRound(c, s) && s.thr[0].pc.CQSet? && CanPut(s.box[Target(c, s)]) && Wakes(c, s)
    ensures Wakes(c, ControllerStep(c, s, w))
  {
    var s' := ControllerStep(c, s, w);
    PutViews(c, s, w);
    forall u | 0 <= u < c.n
      ensures WakeOk(c, s', u)
    {
      assert WakeOk(c, s, u);
    }
  }

  lemma PutController(c: Config, s: State, w: nat)
    requires InRound(c, s) && s.thr[0].pc.CQSet? && CanPut(s.box[Target(c, s)])
    requires ControllerOk(c, s) && LocalIn(c, s, Target(c, s))
    ensures ControllerOk(c, ControllerStep(c, s, w))
  {
    PutViews(c, s, w);
    PutOutcome(c, s);
    var g := c.rounds[s.round].group;
    if 0 in g {
      var j :| 0 <= j < |g| && g[j] == 0;
      assert g[0] == 0;
    }
  }

  lemma PutInv(c: Config, s: State, w: nat)
    requires Inv(c, s) && InRound(c, s) && s.thr[0].pc.CQSet? && CanPut(s.box[Target(c, s)])
    requires !StoppedBefore(c, s.round, Target(c, s))
    ensures Inv(c, ControllerStep(c, s, w))
  {
    var s' := ControllerStep(c, s, w);
    assert LocalIn(c, s, Target(c, s));
    PutViews(c, s, w);
    PutLocals(c, s, w);
    PutOwners(c, s, w);
    PutWakes(c, s, w);
    PutController(c, s, w);
    KeepBarrier(c, s, s');
  }

  // ----- queue_work: the signal -------------------------------------------------------

  lemma NotifyShape(c: Config, s: State, w: nat)
    requires InRound(c, s) && s.thr[0].pc.CQSignal? && Roles(c, s)
    requires forall u | 0 <= u < c.n && AsleepOn(c, s, u, Target(c, s)) :: AsleepOn(c, s, w, Target(c, s))
    ensures var s' := ControllerStep(c, s, w);
            && Touches(c, s, s', 0) && s'.box == s.box && s'.bar == s.bar && s'.slots == s.slots
            && s'.alive == s.alive && s'.joined == s.joined && s'.failed == s.failed
            && s'.thr[0] == s.thr[0].(pc := CQUnlock)
            && ViewOf(c, s') == ViewOf(c, s) && StepLive(c, s') == StepLive(c, s)
            && !s'.thr[Target(c, s)].pc.WSleep?
            && (forall u | 0 <= u < c.n && u != 0 && u != Target(c, s) :: s'.thr[u] == s.thr[u])
  {
    var i := Target(c, s);
    if AsleepOn(c, s, i, i) {
      assert AsleepOn(c, s, w, i);
      assert w == i;
    }
  }

  lemma NotifyLocals(c: Config, s: State, w: nat)
    requires InRound(c, s) && s.thr[0].pc.CQSignal? && Roles(c, s) && Locals(c, s)
    requires forall u | 0 <= u < c.n && AsleepOn(c, s, u, Target(c, s)) :: AsleepOn(c, s, w, Target(c, s))
    ensures Locals(c, ControllerStep(c, s, w))
    ensures PlaceIn(c, ControllerStep(c, s, w), 0) == PlaceIn(c, s, 0)
  {
    var s' := ControllerStep(c, s, w);
    NotifyShape(c, s, w);
    assert LocalIn(c, s, 0);
    CtlLocal(c, ViewOf(c, s), s.slots, s.bar.phase, s.thr[0], s.box[0], s'.thr[0], s'.box[0]);
    KeepLocals(c, s, s', 0);
  }

  lemma NotifyOwners(c: Config, s: State, w: nat)
    requires InRound(c, s) && s.thr[0].pc.CQSignal? && Roles(c, s) && Owners(c, s)
    requires forall u | 0 <= u < c.n && AsleepOn(c, s, u, Target(c, s)) :: AsleepOn(c, s, w, Target(c, s))
    ensures Owners(c, ControllerStep(c, s, w))
  {
    NotifyShape(c, s, w);
    assert HolderOwns(c, s, 0);
    KeepOwnersBox(c, s, ControllerStep(c, s, w), 0);
  }

  lemma NotifyWakes(c: Config, s: State, w: nat)
    requires InRound(c, s) && s.thr[0].pc.CQSignal? && Roles(c, s) && Wakes(c, s) && Owners(c, s)
    requires forall u | 0 <= u < c.n && AsleepOn(c, s, u, Target(c, s)) :: AsleepOn(c, s, w, Target(c, s))
    ensures Wakes(c, ControllerStep(c, s, w))
  {
    var s' := ControllerStep(c, s, w);
    NotifyShape(c, s, w);
    forall u | 0 <= u < c.n
      ensures WakeOk(c, s', u)
    {
      assert WakeOk(c, s, u);
    }
  }

  lemma NotifyController(c: Config, s: State, w: nat)
    requires InRound(c, s) && s.thr[0].pc.CQSignal? && Roles(c, s) && ControllerOk(c, s)
    requires forall u | 0 <= u < c.n && AsleepOn(c, s, u, Target(c, s)) :: AsleepOn(c, s, w, Target(c, s))
    ensures ControllerOk(c, ControllerStep(c, s, w))
  {
    NotifyShape(c, s, w);
  }

  lemma NotifyInv(c: Config, s: State, w: nat)
    requires Inv(c, s) && InRound(c, s) && s.thr[0].pc.CQSignal?
    requires forall u | 0 <= u < c.n && AsleepOn(c, s, u, Target(c, s)) :: AsleepOn(c, s, w, Target(c, s))
    ensures Inv(c, ControllerStep(c, s, w))
  {
    var s' := ControllerStep(c, s, w);
    NotifyShape(c, s, w);
    NotifyLocals(c, s, w);
    NotifyOwners(c, s, w);
    NotifyWakes(c, s, w);
    NotifyController(c, s, w);
    KeepRoles(c, s, s', 0);
    KeepPlaces(c, s, s', 0);
    KeepBarrier(c, s, s');
  }

  // ----- wait_until_done: collecting -----------------------------------------------------

  lemma CollectOther(c: Config, v: View, v': View, slots: seq<Option<Job>>, phase: nat, t: nat, th: Thread, b: Mailbox, th': Thread)
    requires Local(c, v, slots, t, th, b)
    requires v' == v.(lo := v.lo + 1) && IndexOf(Group(c, v.round), t) != v.lo
    requires th' == th || (t == 0 && CollectingPc(th.pc) && CollectingPc(th'.pc) && th'.calls == th.calls)
    ensures Local(c, v', slots, t, th', b)
    ensures PlaceOf(c, v', phase, t, th', b) == PlaceOf(c, v, phase, t, th, b)
  {
  }

  lemma CollectSelf(c: Config, v: View, v': View, slots: seq<Option<Job>>, phase: nat, t: nat, th: Thread, b: Mailbox, th': Thread)
    requires Local(c, v, slots, t, th, b)
    requires v.lo < v.hi && v' == v.(lo := v.lo + 1) && v.round < |c.rounds|
    requires IndexOf(Group(c, v.round), t) == v.lo
    requires b.s == DONE && !ReturnedPc(th.pc)
    requires if t == 0 then !v.stuck && CollectingPc(th'.pc) && th'.calls == th.calls else th' == th
    ensures Local(c, v', slots, t, th', Collect(b))
    ensures PlaceOf(c, v', phase, t, th', Collect(b)) == PlaceOf(c, v, phase, t, th, b)
  {
  }

  lemma CollectViews(c: Config, s: State, w: nat)
    requires InRound(c, s) && s.thr[0].pc.CCTest? && s.box[Target(c, s)].s == DONE
    ensures var s' := ControllerStep(c, s, w);
            && ViewOf(c, s) == View(s.round, s.thr[0].k, |Group(c, s.round)|, StuckBefore(c, s.round) || c.rounds[s.round].pair)
            && ViewOf(c, s') == ViewOf(c, s).(lo := s.thr[0].k + 1)
            && StepLive(c, s') == StepLive(c, s)
            && s'.thr == s.thr[0 := s.thr[0].(pc := CCUnlock)]
            && s'.box == s.box[Target(c, s) := Collect(s.box[Target(c, s)])]
            && s'.bar == s.bar && s'.slots == s.slots && s'.alive == s.alive && s'.round == s.round
            && s'.joined == s.joined && s'.failed == s.failed
  {
  }

  /** The worker has released its mutex by the time the controller collects. */
  lemma CollectSafe(c: Config, s: State)
    requires InRound(c, s) && s.thr[0].pc.CCTest? && Owners(c, s) && ControllerOk(c, s)
    ensures !ReturnedPc(s.thr[Target(c, s)].pc)
    ensures Target(c, s) == 0 ==> !ViewOf(c, s).stuck
  {
    assert HolderOwns(c, s, 0);
    assert HolderOwns(c, s, Target(c, s));
    var g := c.rounds[s.round].group;
    if Target(c, s) == 0 {
      assert s.thr[0].k == 0;
      assert 0 in g;
    }
  }

  lemma CollectLocals(c: Config, s: State, w: nat)
    requires InRound(c, s) && s.thr[0].pc.CCTest? && s.box[Target(c, s)].s == DONE
    requires Locals(c, s) && !ReturnedPc(s.thr[Target(c, s)].pc) && (Target(c, s) == 0 ==> !ViewOf(c, s).stuck)
    ensures Locals(c, ControllerStep(c, s, w))
    ensures forall t | 0 <= t < c.n :: PlaceIn(c, ControllerStep(c, s, w), t) == PlaceIn(c, s, t)
  {
    var s' := ControllerStep(c, s, w);
    CollectViews(c, s, w);
    IndexUnique(c.rounds[s.round].group, s.thr[0].k);
    forall t | 0 <= t < c.n
      ensures LocalIn(c, s', t) && PlaceIn(c, s', t) == PlaceIn(c, s, t)
    {
      assert LocalIn(c, s, t);
      if t == Target(c, s) {
        CollectSelf(c, ViewOf(c, s), ViewOf(c, s'), s.slots, s.bar.phase, t, s.thr[t], s.box[t], s'.thr[t]);
      } else {
        CollectOther(c, ViewOf(c, s), ViewOf(c, s'), s.slots, s.bar.phase, t, s.thr[t], s.box[t], s'.thr[t]);
      }
    }
  }

  lemma CollectOwners(c: Config, s: State, w: nat)
    requires InRound(c, s) && s.thr[0].pc.CCTest? && s.box[Target(c, s)].s == DONE && Owners(c, s)
    ensures Owners(c, ControllerStep(c, s, w))
  {
    CollectViews(c, s, w);
    assert HolderOwns(c, s, 0);
    KeepOwnersBox(c, s, ControllerStep(c, s, w), 0);
  }

  lemma CollectWakes(c: Config, s: State, w: nat)
    requires InRound(c, s) && s.thr[0].pc.CCTest? && s.box[Target(c, s)].s == DONE && Wakes(c, s)
    ensures Wakes(c, ControllerStep(c, s, w))
  {
    var s' := ControllerStep(c, s, w);
    CollectViews(c, s, w);
    forall u | 0 <= u < c.n
      ensures WakeOk(c, s', u)
    {
      assert WakeOk(c, s, u);
    }
  }

  lemma CollectController(c: Config, s: State, w: nat)
    requires InRound(c, s) && s.thr[0].pc.CCTest? && s.box[Target(c, s)].s == DONE && ControllerOk(c, s)
    ensures ControllerOk(c, ControllerStep(c, s, w))
  {
    CollectViews(c, s, w);
  }

  lemma CollectInv(c: Config, s: State, w: nat)
    requires Inv(c, s) && InRound(c, s) && s.thr[0].pc.CCTest? && s.box[Target(c, s)].s == DONE
    ensures Inv(c, ControllerStep(c, s, w))
  {
    CollectViews(c, s, w);
    CollectSafe(c, s);
    CollectLocals(c, s, w);
    CollectOwners(c, s, w);
    CollectWakes(c, s, w);
    CollectController(c, s, w);
    KeepBarrier(c, s, ControllerStep(c, s, w));
  }
}
