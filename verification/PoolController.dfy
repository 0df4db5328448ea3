/** Every controller step keeps the invariant, except the one that queues work for
    a dirigent whose mailbox was never collected. */
module PoolController {
  import opened Sync
  import opened Pool
  import opened PoolInvariant
  import opened PoolFrames

  // ----- steps that only move the controller and one mutex -------------------------

  function CtlQuiet(s: State, th': Thread, i: nat, o': Option<nat>): State
    requires 0 < |s.thr| && i < |s.box|
  {
    s.(thr := s.thr[0 := th'], box := s.box[i := s.box[i].(owner := o')])
  }

  predicate CtlMove(c: Config, s: State, th': Thread, i: nat, o': Option<nat>) {
    && Sizes(c, s) && i < c.n
    && CtlPc(s.thr[0].pc) && th'.calls == s.thr[0].calls && th'.held == s.thr[0].held
    && (CtlPc(th'.pc) || th'.pc.WStart?)
    && ViewOf(c, CtlQuiet(s, th', i, o')) == ViewOf(c, s)
    && StepLive(c, CtlQuiet(s, th', i, o')) == StepLive(c, s)
  }

  /** Thread 0 stays within the same part of the round, or enters worker() with
      its own work queued. */
  predicate SamePart(c: Config, v: View, pc: PC, pc': PC) {
    && (QueueingPc(pc) ==> QueueingPc(pc') || (pc'.WStart? && v.lo <= IndexOf(Group(c, v.round), 0) < v.hi)
                           || (CtlPc(pc') && !(v.lo <= IndexOf(Group(c, v.round), 0) < v.hi)))
    && (CollectingPc(pc) ==> CollectingPc(pc') || (CtlPc(pc') && !(v.lo <= IndexOf(Group(c, v.round), 0) < v.hi)))
    && (!QueueingPc(pc) && !CollectingPc(pc) ==> CtlPc(pc') && v.lo >= v.hi)
  }

  lemma CtlLocal(c: Config, v: View, slots: seq<Option<Job>>, phase: nat, th: Thread, b: Mailbox, th': Thread, b': Mailbox)
    requires Local(c, v, slots, 0, th, b) && CtlPc(th.pc) && SameMail(b, b')
    requires th'.calls == th.calls && SamePart(c, v, th.pc, th'.pc)
    ensures Local(c, v, slots, 0, th', b')
    ensures PlaceOf(c, v, phase, 0, th', b') == PlaceOf(c, v, phase, 0, th, b)
  {
  }

  lemma CtlLocals(c: Config, s: State, th': Thread, i: nat, o': Option<nat>)
    requires CtlMove(c, s, th', i, o') && Locals(c, s) && Roles(c, s)
    requires SamePart(c, ViewOf(c, s), s.thr[0].pc, th'.pc)
    ensures Locals(c, CtlQuiet(s, th', i, o')) && Roles(c, CtlQuiet(s, th', i, o'))
    ensures PlaceIn(c, CtlQuiet(s, th', i, o'), 0) == PlaceIn(c, s, 0)
  {
    var s' := CtlQuiet(s, th', i, o');
    assert LocalIn(c, s, 0);
    CtlLocal(c, ViewOf(c, s), s.slots, s.bar.phase, s.thr[0], s.box[0], th', s'.box[0]);
    KeepLocals(c, s, s', 0);
  }

  lemma CtlBarrier(c: Config, s: State, th': Thread, i: nat, o': Option<nat>)
    requires CtlMove(c, s, th', i, o') && BarrierOk(c, s)
    requires PlaceIn(c, CtlQuiet(s, th', i, o'), 0) == PlaceIn(c, s, 0)
    ensures BarrierOk(c, CtlQuiet(s, th', i, o'))
  {
    var s' := CtlQuiet(s, th', i, o');
    KeepPlaces(c, s, s', 0);
    KeepBarrier(c, s, s');
  }

  /** The controller takes or releases mailbox mutex i as its counter says. */
  predicate CtlLocks(c: Config, s: State, th': Thread, i: nat, o': Option<nat>)
    requires Sizes(c, s) && i < c.n
  {
    var g := Group(c, s.round);
    var h, h' := HeldBox(g, 0, s.thr[0]), HeldBox(g, 0, th');
    && (h == None || h == Some(i)) && (h' == None || h' == Some(i))
    && (h'.Some? && h.None? ==> s.box[i].owner == None)
    && o' == (if h'.Some? then Some(0) else if h.Some? then None else s.box[i].owner)
  }

  lemma CtlOwners(c: Config, s: State, th': Thread, i: nat, o': Option<nat>)
    requires CtlMove(c, s, th', i, o') && Owners(c, s) && CtlLocks(c, s, th', i, o')
    ensures Owners(c, CtlQuiet(s, th', i, o'))
  {
    var s' := CtlQuiet(s, th', i, o');
    assert HolderOwns(c, s, 0);
    forall u | 0 <= u < c.n
      ensures HolderOwns(c, s', u) && OwnerHolds(c, s', u)
    {
      assert HolderOwns(c, s, u);
      assert OwnerHolds(c, s, u);
    }
  }

  lemma CtlWakes(c: Config, s: State, th': Thread, i: nat, o': Option<nat>)
    requires CtlMove(c, s, th', i, o') && Owners(c, s) && Wakes(c, s) && Owners(c, CtlQuiet(s, th', i, o'))
    requires !s.thr[0].pc.CQSignal? && !th'.pc.CQSignal? && !th'.pc.CQUnlock?
    requires th'.pc.CCSleep? ==> th'.k < |Group(c, s.round)| && Group(c, s.round)[th'.k] == i && s.box[i].s != DONE
    ensures Wakes(c, CtlQuiet(s, th', i, o'))
  {
    KeepWakes(c, s, CtlQuiet(s, th', i, o'), 0);
  }

  lemma CtlInv(c: Config, s: State, th': Thread, i: nat, o': Option<nat>)
    requires Inv(c, s) && CtlMove(c, s, th', i, o')
    requires SamePart(c, ViewOf(c, s), s.thr[0].pc, th'.pc)
    requires CtlLocks(c, s, th', i, o')
    requires !s.thr[0].pc.CQSignal? && !th'.pc.CQSignal? && !th'.pc.CQUnlock?
    requires th'.pc.CCSleep? ==> th'.k < |Group(c, s.round)| && Group(c, s.round)[th'.k] == i && s.box[i].s != DONE
    requires ControllerOk(c, CtlQuiet(s, th', i, o'))
    ensures Inv(c, CtlQuiet(s, th', i, o'))
  {
    CtlLocals(c, s, th', i, o');
    CtlOwners(c, s, th', i, o');
    CtlWakes(c, s, th', i, o');
    CtlBarrier(c, s, th', i, o');
  }

  // ----- locking, unlocking and falling asleep ---------------------------------------

  predicate QuietCtlPc(pc: PC, b: Mailbox) {
    pc.CQLock? || pc.CQUnlock? || pc.CCLock? || pc.CCReacq? || pc.CCUnlock? || (pc.CCTest? && b.s != DONE)
  }

  /** The mailbox the controller works on. */
  function Target(c: Config, s: State): nat
    requires s.round < |c.rounds| && |s.thr| > 0 && s.thr[0].k < |c.rounds[s.round].group|
  {
    c.rounds[s.round].group[s.thr[0].k]
  }

  /** The controller is inside a round and can see the mailbox of its slot. */
  predicate InRound(c: Config, s: State) {
    && Sizes(c, s) && CtlShaped(c, s) && !s.thr[0].pc.CDone?
    && RoundOk(c.n, c.rounds[s.round])
  }

  function NextThread(c: Config, s: State): Thread
    requires InRound(c, s)
  {
    CtlThread(c, s.round, s.thr[0], s.box[Target(c, s)])
  }

  function NextBox(c: Config, s: State): Mailbox
    requires InRound(c, s)
  {
    CtlBox(s.thr[0], s.box[Target(c, s)])
  }

  lemma QuietCtlMove(c: Config, s: State)
    requires InRound(c, s) && ControllerOk(c, s)
    requires QuietCtlPc(s.thr[0].pc, s.box[Target(c, s)])
    ensures CtlMove(c, s, NextThread(c, s), Target(c, s), NextBox(c, s).owner)
  {
  }

  lemma QuietCtlPart(c: Config, s: State)
    requires InRound(c, s) && ControllerOk(c, s)
    requires QuietCtlPc(s.thr[0].pc, s.box[Target(c, s)])
    ensures SamePart(c, ViewOf(c, s), s.thr[0].pc, NextThread(c, s).pc)
  {
    var g := c.rounds[s.round].group;
    IndexUnique(g, 0);
    assert 0 in g ==> g[0] == 0;
  }

  lemma QuietCtlSilent(c: Config, s: State)
    requires InRound(c, s) && QuietCtlPc(s.thr[0].pc, s.box[Target(c, s)])
    ensures !NextThread(c, s).pc.CQSignal? && !NextThread(c, s).pc.CQUnlock?
  {
  }

  lemma QuietCtlLocks(c: Config, s: State)
    requires InRound(c, s) && Owners(c, s)
    requires QuietCtlPc(s.thr[0].pc, s.box[Target(c, s)])
    requires s.thr[0].pc.CQLock? || s.thr[0].pc.CCLock? || s.thr[0].pc.CCReacq? ==> s.box[Target(c, s)].owner == None
    ensures CtlLocks(c, s, NextThread(c, s), Target(c, s), NextBox(c, s).owner)
  {
  }

  lemma QuietCtlController(c: Config, s: State)
    requires InRound(c, s) && ControllerOk(c, s)
    requires QuietCtlPc(s.thr[0].pc, s.box[Target(c, s)])
    ensures ControllerOk(c, CtlQuiet(s, NextThread(c, s), Target(c, s), NextBox(c, s).owner))
  {
  }

  lemma QuietCtlInv(c: Config, s: State, w: nat)
    requires Inv(c, s) && InRound(c, s)
    requires QuietCtlPc(s.thr[0].pc, s.box[Target(c, s)])
    requires s.thr[0].pc.CQLock? || s.thr[0].pc.CCLock? || s.thr[0].pc.CCReacq? ==> s.box[Target(c, s)].owner == None
    ensures Inv(c, ControllerStep(c, s, w))
  {
    QuietCtlMove(c, s);
    QuietCtlPart(c, s);
    QuietCtlSilent(c, s);
    QuietCtlLocks(c, s);
    QuietCtlController(c, s);
    CtlInv(c, s, NextThread(c, s), Target(c, s), NextBox(c, s).owner);
    assert ControllerStep(c, s, w) == CtlQuiet(s, NextThread(c, s), Target(c, s), NextBox(c, s).owner);
  }
}
