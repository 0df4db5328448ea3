/** The controller steps that queue, collect and change rounds. */
module PoolRounds {
  import opened Sync
  import opened Pool
  import opened PoolInvariant
  import opened PoolFrames
  import opened PoolController

  // ----- init_step and filling a slot -----------------------------------------------

  lemma SlotsLocal(c: Config, v: View, slots: seq<Option<Job>>, slots': seq<Option<Job>>, t: nat, th: Thread, b: Mailbox)
    requires Local(c, v, slots, t, th, b)
    requires |slots'| == |slots|
    requires forall k | 0 <= k < |slots| && v.lo <= k < v.hi :: slots'[k] == slots[k]
    ensures Local(c, v, slots', t, th, b)
  {
  }

  lemma EmptyLocal(c: Config, v: View, slots: seq<Option<Job>>, slots': seq<Option<Job>>, t: nat, th: Thread, th': Thread, b: Mailbox)
    requires Local(c, v, slots, t, th, b) && v.lo >= v.hi
    requires th' == th || (t == 0 && CtlPc(th.pc) && CtlPc(th'.pc) && th'.calls == th.calls)
    ensures Local(c, v, slots', t, th', b)
  {
  }

  lemma NobodyHolds(c: Config, s: State)
    requires Sizes(c, s) && Locals(c, s) && Owners(c, s) && ViewOf(c, s).lo >= ViewOf(c, s).hi
    ensures s.bar.owner == None
    ensures forall t | 0 <= t < c.n :: !WorkPc(s.thr[t].pc)
  {
    forall t | 0 <= t < c.n ensures !WorkPc(s.thr[t].pc) {
      assert LocalIn(c, s, t);
    }
  }

  lemma InitLocals(c: Config, s: State)
    requires Sizes(c, s) && Locals(c, s) && s.thr[0].pc.CInit?
    ensures Locals(c, InitStep(c, s))
    ensures ViewOf(c, InitStep(c, s)) == ViewOf(c, s)
  {
    var s' := InitStep(c, s);
    forall t | 0 <= t < c.n ensures LocalIn(c, s', t) {
      assert LocalIn(c, s, t);
      EmptyLocal(c, ViewOf(c, s), s.slots, s'.slots, t, s.thr[t], s'.thr[t], s.box[t]);
    }
  }

  lemma InitSync(c: Config, s: State)
    requires Sizes(c, s) && Owners(c, s) && Wakes(c, s) && s.thr[0].pc.CInit?
    requires s.bar.owner == None
    requires forall t | 0 <= t < c.n :: !WorkPc(s.thr[t].pc)
    ensures Owners(c, InitStep(c, s)) && Wakes(c, InitStep(c, s))
  {
    var s' := InitStep(c, s);
    forall t | 0 <= t < c.n
      ensures HolderOwns(c, s', t) && OwnerHolds(c, s', t) && WakeOk(c, s', t)
    {
      assert HolderOwns(c, s, t);
      assert OwnerHolds(c, s, t);
      assert WakeOk(c, s, t);
      assert !WorkPc(s.thr[t].pc);
    }
  }

  lemma InitBarrier(c: Config, s: State)
    requires Sizes(c, s) && BarrierOk(c, s) && s.thr[0].pc.CInit? && s.round < |c.rounds|
    requires |Group(c, s.round)| > 0 && ViewOf(c, InitStep(c, s)) == ViewOf(c, s)
    ensures BarrierOk(c, InitStep(c, s))
  {
    var s' := InitStep(c, s);
    assert ViewOf(c, s).hi == 0;
    forall t | 0 <= t < c.n
      ensures PlaceIn(c, s', t) == PlaceIn(c, s, t)
      ensures PlaceIn(c, s, t) == Outside || PlaceIn(c, s, t) == Before
    {
    }
    assert AtBarrier(c, s') == {} == AtBarrier(c, s);
  }

  lemma InitInv(c: Config, s: State)
    requires Inv(c, s) && s.thr[0].pc.CInit? && s.round < |c.rounds| && RoundOk(c.n, c.rounds[s.round])
    ensures Inv(c, InitStep(c, s))
  {
    NobodyHolds(c, s);
    InitLocals(c, s);
    InitSync(c, s);
    InitBarrier(c, s);
  }

  lemma FillInv(c: Config, s: State, w: nat)
    requires Inv(c, s) && InRound(c, s) && s.thr[0].pc.CFill?
    ensures Inv(c, ControllerStep(c, s, w))
  {
    var s' := ControllerStep(c, s, w);
    var i := Target(c, s);
    var th' := NextThread(c, s);
    var s1 := CtlQuiet(s, th', i, s.box[i].owner);
    FillMoves(c, s);
    CtlLocals(c, s, th', i, s.box[i].owner);
    CtlOwners(c, s, th', i, s.box[i].owner);
    CtlWakes(c, s, th', i, s.box[i].owner);
    CtlBarrier(c, s, th', i, s.box[i].owner);
    FillSlot(c, s, s1, s.slots[s.thr[0].k := Some(JobOf(c.rounds[s.round], s.thr[0].k))]);
    assert s' == s1.(slots := s.slots[s.thr[0].k := Some(JobOf(c.rounds[s.round], s.thr[0].k))]);
  }

  lemma FillMoves(c: Config, s: State)
    requires InRound(c, s) && s.thr[0].pc.CFill?
    ensures CtlMove(c, s, NextThread(c, s), Target(c, s), s.box[Target(c, s)].owner)
    ensures SamePart(c, ViewOf(c, s), s.thr[0].pc, NextThread(c, s).pc)
    ensures CtlLocks(c, s, NextThread(c, s), Target(c, s), s.box[Target(c, s)].owner)
    ensures !NextThread(c, s).pc.CCSleep? && !NextThread(c, s).pc.CQSignal? && !NextThread(c, s).pc.CQUnlock?
  {
  }

  /** Filling slot k disturbs nobody: only slots below k are in use. */
  lemma FillSlot(c: Config, s: State, s1: State, slots': seq<Option<Job>>)
    requires InRound(c, s) && s.thr[0].pc.CFill? && ControllerOk(c, s)
    requires s1 == CtlQuiet(s, NextThread(c, s), Target(c, s), s.box[Target(c, s)].owner)
    requires Locals(c, s1) && Roles(c, s1) && Owners(c, s1) && Wakes(c, s1) && BarrierOk(c, s1) && !s.failed
    requires slots' == s.slots[s.thr[0].k := Some(JobOf(c.rounds[s.round], s.thr[0].k))]
    ensures Inv(c, s1.(slots := slots'))
  {
    var s' := s1.(slots := slots');
    assert ViewOf(c, s') == ViewOf(c, s1);
    forall t | 0 <= t < c.n
      ensures LocalIn(c, s', t) && PlaceIn(c, s', t) == PlaceIn(c, s1, t)
    {
      assert LocalIn(c, s1, t);
      SlotsLocal(c, ViewOf(c, s1), s1.slots, slots', t, s1.thr[t], s1.box[t]);
    }
    KeepBarrier(c, s1, s');
    SameSync(c, s1, s');
  }

  lemma SameSync(c: Config, s: State, s': State)
    requires Sizes(c, s) && Owners(c, s) && Wakes(c, s)
    requires s'.thr == s.thr && s'.box == s.box && s'.bar == s.bar && s'.round == s.round
    ensures Owners(c, s') && Wakes(c, s')
  {
    forall t | 0 <= t < c.n
      ensures HolderOwns(c, s', t) && OwnerHolds(c, s', t) && WakeOk(c, s', t)
    {
      assert HolderOwns(c, s, t) && OwnerHolds(c, s, t) && WakeOk(c, s, t);
    }
  }

  // ----- joining and ending the round ----------------------------------------------------

  lemma JoinInv(c: Config, s: State, w: nat)
    requires Inv(c, s) && InRound(c, s) && s.thr[0].pc.CJoin?
    ensures Inv(c, ControllerStep(c, s, w))
  {
    var s' := ControllerStep(c, s, w);
    var i := Target(c, s);
    var th' := NextThread(c, s);
    var s1 := CtlQuiet(s, th', i, s.box[i].owner);
    JoinMoves(c, s);
    CtlLocals(c, s, th', i, s.box[i].owner);
    CtlOwners(c, s, th', i, s.box[i].owner);
    CtlWakes(c, s, th', i, s.box[i].owner);
    CtlBarrier(c, s, th', i, s.box[i].owner);
    assert s' == s1.(joined := s'.joined);
    JoinRest(c, s1, s'.joined);
    JoinController(c, s, w);
  }

  lemma JoinMoves(c: Config, s: State)
    requires InRound(c, s) && s.thr[0].pc.CJoin?
    ensures CtlMove(c, s, NextThread(c, s), Target(c, s), s.box[Target(c, s)].owner)
    ensures SamePart(c, ViewOf(c, s), s.thr[0].pc, NextThread(c, s).pc)
    ensures CtlLocks(c, s, NextThread(c, s), Target(c, s), s.box[Target(c, s)].owner)
    ensures !NextThread(c, s).pc.CCSleep? && !NextThread(c, s).pc.CQSignal? && !NextThread(c, s).pc.CQUnlock?
  {
  }

  lemma JoinRest(c: Config, s1: State, joined: seq<nat>)
    requires Sizes(c, s1) && Locals(c, s1) && Roles(c, s1) && Owners(c, s1) && Wakes(c, s1) && BarrierOk(c, s1)
    ensures var s' := s1.(joined := joined);
            Locals(c, s') && Roles(c, s') && Owners(c, s') && Wakes(c, s') && BarrierOk(c, s')
  {
    var s' := s1.(joined := joined);
    SameSync(c, s1, s');
    SameLocals(c, s1, s');
    KeepBarrier(c, s1, s');
  }

  lemma SameLocals(c: Config, s: State, s': State)
    requires Sizes(c, s) && Locals(c, s)
    requires s'.thr == s.thr && s'.box == s.box && s'.slots == s.slots && s'.round == s.round && s'.bar == s.bar
    ensures Locals(c, s')
    ensures forall t | 0 <= t < c.n :: PlaceIn(c, s', t) == PlaceIn(c, s, t)
  {
    assert ViewOf(c, s') == ViewOf(c, s);
    forall t | 0 <= t < c.n ensures LocalIn(c, s', t) && PlaceIn(c, s', t) == PlaceIn(c, s, t) {
      assert LocalIn(c, s, t);
    }
  }

  lemma JoinController(c: Config, s: State, w: nat)
    requires InRound(c, s) && s.thr[0].pc.CJoin? && ControllerOk(c, s)
    ensures ControllerOk(c, ControllerStep(c, s, w))
  {
    if c.rounds[s.round].stop {
      assert c.rounds[s.round].group == [c.rounds[s.round].group[0]];
    }
  }

  /** Ending a round turns what the members did in it into history. */
  lemma FreeLocal(c: Config, v: View, v': View, slots: seq<Option<Job>>, slots': seq<Option<Job>>, t: nat,
                  th: Thread, b: Mailbox, th': Thread)
    requires Local(c, v, slots, t, th, b)
    requires v.round < |c.rounds| && v.lo == v.hi == |c.rounds[v.round].group|
    requires v.stuck == (StuckBefore(c, v.round) || c.rounds[v.round].pair)
    requires v' == View(v.round + 1, 0, 0, StuckBefore(c, v.round + 1))
    requires c.rounds[v.round].stop ==> c.rounds[v.round].reps == 1
    requires th' == th || (t == 0 && CtlPc(th'.pc) && th'.calls == th.calls)
    ensures Local(c, v', slots', t, th', b)
  {
    FreeHistory(c, v, v', t, th, b);
  }

  lemma FreeHistory(c: Config, v: View, v': View, t: nat, th: Thread, b: Mailbox)
    requires v.round < |c.rounds| && v.lo == v.hi == |c.rounds[v.round].group|
    requires v'.round == v.round + 1 && v'.hi == 0
    requires c.rounds[v.round].stop ==> c.rounds[v.round].reps == 1
    ensures CallsBefore(c, v.round, t) + Progress(c, v, t, th, b) == CallsBefore(c, v.round + 1, t)
    ensures Stopped(c, v, t, th, b) == StoppedBefore(c, v.round + 1, t) == Stopped(c, v', t, th, b)
  {
    var g := c.rounds[v.round].group;
    assert t in g <==> IndexOf(g, t) >= 0;
  }

  lemma FreePlace(c: Config, v: View, v': View, phase: nat, t: nat, th: Thread, b: Mailbox, th': Thread)
    requires v.lo == v.hi == |Group(c, v.round)| && v'.lo == v'.hi == 0
    ensures PlaceOf(c, v, phase, t, th, b) == After || PlaceOf(c, v, phase, t, th, b) == Outside
    ensures PlaceOf(c, v', phase, t, th', b) == Before || PlaceOf(c, v', phase, t, th', b) == Outside
  {
  }

  lemma FreeView(c: Config, s: State)
    requires Sizes(c, s) && s.thr[0].pc.CFree? && s.round < |c.rounds|
    ensures var s' := FreeStep(c, s);
            && ViewOf(c, s) == View(s.round, |Group(c, s.round)|, |Group(c, s.round)|, StuckBefore(c, s.round) || c.rounds[s.round].pair)
            && ViewOf(c, s') == View(s.round + 1, 0, 0, StuckBefore(c, s.round + 1))
            && Sizes(c, s') && CtlPc(s'.thr[0].pc)
  {
  }

  lemma FreeLocals(c: Config, s: State)
    requires Sizes(c, s) && s.thr[0].pc.CFree? && s.round < |c.rounds| && Locals(c, s)
    requires RoundOk(c.n, c.rounds[s.round])
    ensures Locals(c, FreeStep(c, s))
    ensures forall t | 0 <= t < c.n :: PlaceIn(c, s, t) != At && PlaceIn(c, FreeStep(c, s), t) != At && PlaceIn(c, FreeStep(c, s), t) != After
  {
    var s' := FreeStep(c, s);
    FreeView(c, s);
    forall t | 0 <= t < c.n
      ensures LocalIn(c, s', t)
      ensures PlaceIn(c, s, t) != At && PlaceIn(c, s', t) != At && PlaceIn(c, s', t) != After
    {
      assert LocalIn(c, s, t);
      FreeLocal(c, ViewOf(c, s), ViewOf(c, s'), s.slots, s'.slots, t, s.thr[t], s.box[t], s'.thr[t]);
      FreePlace(c, ViewOf(c, s), ViewOf(c, s'), s.bar.phase, t, s.thr[t], s.box[t], s'.thr[t]);
      FreePlace(c, ViewOf(c, s), ViewOf(c, s'), s'.bar.phase, t, s.thr[t], s.box[t], s'.thr[t]);
    }
  }

  lemma FreeOwners(c: Config, s: State)
    requires Sizes(c, s) && s.thr[0].pc.CFree? && s.round < |c.rounds|
    requires Owners(c, s) && Roles(c, s)
    ensures Owners(c, FreeStep(c, s))
  {
    var s' := FreeStep(c, s);
    forall t | 0 <= t < c.n
      ensures HolderOwns(c, s', t) && OwnerHolds(c, s', t)
    {
      assert HolderOwns(c, s, t) && OwnerHolds(c, s, t);
    }
  }

  lemma FreeWakes(c: Config, s: State)
    requires Sizes(c, s) && s.thr[0].pc.CFree? && s.round < |c.rounds| && Wakes(c, s)
    ensures Wakes(c, FreeStep(c, s))
  {
    var s' := FreeStep(c, s);
    forall t | 0 <= t < c.n
      ensures WakeOk(c, s', t)
    {
      assert WakeOk(c, s, t);
    }
  }

  lemma FreeBarrier(c: Config, s: State)
    requires Sizes(c, s) && s.thr[0].pc.CFree? && s.round < |c.rounds| && BarrierOk(c, s)
    requires forall t | 0 <= t < c.n :: PlaceIn(c, s, t) != At && PlaceIn(c, FreeStep(c, s), t) != At && PlaceIn(c, FreeStep(c, s), t) != After
    requires !c.rounds[s.round].free ==> s.round + 1 < |c.rounds| && |Group(c, s.round + 1)| == |Group(c, s.round)|
    ensures BarrierOk(c, FreeStep(c, s))
  {
    assert AtBarrier(c, s) == {} == AtBarrier(c, FreeStep(c, s));
  }

  lemma FreeController(c: Config, s: State)
    requires Sizes(c, s) && s.thr[0].pc.CFree? && s.round < |c.rounds| && ControllerOk(c, s)
    requires RoundOk(c.n, c.rounds[s.round]) && (s.round + 1 < |c.rounds| ==> RoundOk(c.n, c.rounds[s.round + 1]))
    ensures ControllerOk(c, FreeStep(c, s))
  {
    FreeView(c, s);
  }

  lemma FreeInv(c: Config, s: State)
    requires Inv(c, s) && s.thr[0].pc.CFree? && s.round < |c.rounds|
    requires RoundOk(c.n, c.rounds[s.round]) && (s.round + 1 < |c.rounds| ==> RoundOk(c.n, c.rounds[s.round + 1]))
    requires !c.rounds[s.round].free ==> s.round + 1 < |c.rounds| && |Group(c, s.round + 1)| == |Group(c, s.round)|
    ensures Inv(c, FreeStep(c, s))
  {
    FreeLocals(c, s);
    FreeOwners(c, s);
    FreeWakes(c, s);
    FreeBarrier(c, s);
    FreeController(c, s);
  }
}
