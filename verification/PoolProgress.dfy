/** No interleaving deadlocks: before the controller is done, some thread has a
    step that is not a spurious wakeup. */
module PoolProgress {
  import opened Sync
  import opened Sums
  import opened Pool
  import opened PoolInvariant
  import opened PoolBarrier
  import opened PoolController
  import opened PoolSafety

  /** Not asleep, not finished, not waiting in pthread_join. */
  predicate Movable(pc: PC) {
    !Asleep(pc) && !pc.WExit? && !pc.CDone? && !pc.CJoin?
  }

  predicate CanStep(c: Config, s: State) {
    Shaped(c, s) && exists t | 0 <= t < c.n :: Enabled(c, s, t)
  }

  /** A thread that holds a mutex can always take its next step. */
  lemma HolderRuns(c: Config, s: State, u: nat)
    requires Shaped(c, s) && !s.failed && u < c.n
    requires HeldBox(Group(c, s.round), u, s.thr[u]).Some? || HoldsBarrier(s.thr[u].pc)
    ensures Enabled(c, s, u)
  {
  }

  lemma MovableRuns(c: Config, s: State, t: nat)
    requires Shaped(c, s) && Inv(c, s) && t < c.n && Movable(s.thr[t].pc)
    ensures CanStep(c, s)
  {
    var i := LockTarget(c, s, t);
    if i.Some? && s.box[i.value].owner.Some? {
      assert OwnerHolds(c, s, i.value);
      HolderRuns(c, s, s.box[i.value].owner.value);
    } else if (s.thr[t].pc.BLock? || s.thr[t].pc.BReacq?) && s.bar.owner.Some? {
      HolderRuns(c, s, s.bar.owner.value);
    } else {
      assert Enabled(c, s, t);
    }
  }

  /** The controller has queued every member of the round. */
  predicate AllQueued(c: Config, s: State)
    requires |s.thr| > 0
  {
    ViewOf(c, s).hi == |Group(c, s.round)| && !QueueingPc(s.thr[0].pc)
  }

  /** A queued worker is on its way: it is not asleep, because its sleep would
      have been signalled. */
  lemma QueuedMoves(c: Config, s: State, u: nat)
    requires Inv(c, s) && u < c.n && AllQueued(c, s)
    requires ViewOf(c, s).lo <= IndexOf(Group(c, s.round), u) && s.box[u].s == QUEUED
    ensures Movable(s.thr[u].pc)
  {
    assert LocalIn(c, s, u);
    assert WakeOk(c, s, u);
  }

  /** The barrier is short of somebody. */
  lemma SomeoneMissing(c: Config, s: State) returns (u: nat)
    requires Sizes(c, s) && Distinct(Group(c, s.round)) && |AtBarrier(c, s)| < |Group(c, s.round)|
    requires forall k | 0 <= k < |Group(c, s.round)| :: Group(c, s.round)[k] < c.n
    ensures u < c.n && IndexOf(Group(c, s.round), u) >= 0 && PlaceIn(c, s, u) != At
  {
    var g := Group(c, s.round);
    MembersSize(g);
    if Members(g) <= AtBarrier(c, s) {
      SubsetSize(Members(g), AtBarrier(c, s));
      assert false;
    }
    var x :| x in Members(g) && x !in AtBarrier(c, s);
    u := x;
    var k: nat :| k < |g| && g[k] == u;
    IndexUnique(g, k);
  }

  /** Somebody waits at the barrier, so somebody is still on the way to it. */
  lemma SomeoneComes(c: Config, s: State, t: nat) returns (u: nat)
    requires Sizes(c, s) && BarrierOk(c, s) && t < c.n && s.alive && Distinct(Group(c, s.round))
    requires forall k | 0 <= k < |Group(c, s.round)| :: Group(c, s.round)[k] < c.n
    requires PlaceIn(c, s, t) == At
    ensures u < c.n && PlaceIn(c, s, u) == Before
  {
    u := SomeoneMissing(c, s);
    assert ViewOf(c, s).round == s.round;
    assert PlaceIn(c, s, u) != Outside;
  }

  lemma BeforeMoves(c: Config, s: State, u: nat)
    requires Inv(c, s) && u < c.n && AllQueued(c, s) && PlaceIn(c, s, u) == Before
    ensures Movable(s.thr[u].pc)
  {
    assert LocalIn(c, s, u);
    if s.box[u].s == QUEUED {
      QueuedMoves(c, s, u);
    }
  }

  lemma SleeperFreed(c: Config, s: State, t: nat)
    requires Shaped(c, s) && Inv(c, s) && t < c.n && AllQueued(c, s) && s.thr[t].pc.BSleep?
    requires Distinct(Group(c, s.round))
    requires forall k | 0 <= k < |Group(c, s.round)| :: Group(c, s.round)[k] < c.n
    ensures CanStep(c, s)
  {
    assert WakeOk(c, s, t);
    if s.thr[t].saved != s.bar.phase {
      HolderRuns(c, s, s.bar.owner.value);
    } else {
      StepIsLive(c, s, t);
      SleepsAt(c, s, t);
      var u := SomeoneComes(c, s, t);
      BeforeMoves(c, s, u);
      MovableRuns(c, s, u);
    }
  }

  lemma SleepsAt(c: Config, s: State, t: nat)
    requires Inv(c, s) && t < c.n && s.thr[t].pc.BSleep? && s.thr[t].saved == s.bar.phase
    ensures PlaceIn(c, s, t) == At
  {
    assert LocalIn(c, s, t);
  }

  /** The worker whose result the controller waits for. */
  lemma CollectedWorkerRuns(c: Config, s: State)
    requires Shaped(c, s) && Inv(c, s) && s.thr[0].pc.CCSleep? && InRound(c, s)
    ensures CanStep(c, s)
  {
    var i := Target(c, s);
    IndexUnique(c.rounds[s.round].group, s.thr[0].k);
    assert LocalIn(c, s, i);
    assert WakeOk(c, s, 0);
    match s.box[i].s
    case DONE => MovableRuns(c, s, i);
    case QUEUED =>
      QueuedMoves(c, s, i);
      MovableRuns(c, s, i);
    case WORKING =>
      if s.thr[i].pc.BSleep? { SleeperFreed(c, s, i); } else { MovableRuns(c, s, i); }
  }

  /** The dirigent never sleeps for work: its own job is queued before it starts. */
  lemma DirigentAwake(c: Config, s: State)
    requires Inv(c, s) && s.round < |c.rounds| && RoundOk(c.n, c.rounds[s.round])
    requires !CtlPc(s.thr[0].pc)
    ensures !s.thr[0].pc.WSleep? && !s.thr[0].pc.WExit?
  {
    IndexUnique(c.rounds[s.round].group, 0);
    assert LocalIn(c, s, 0);
    assert WakeOk(c, s, 0);
  }

  /** A joined thread has been told to stop and leaves its loop. */
  lemma JoinedExits(c: Config, s: State)
    requires Shaped(c, s) && Inv(c, s) && s.thr[0].pc.CJoin? && InRound(c, s) && c.rounds[s.round].stop
    ensures CanStep(c, s)
  {
    var i := c.rounds[s.round].group[0];
    IndexUnique(c.rounds[s.round].group, 0);
    assert LocalIn(c, s, i);
    assert s.thr[i].pc.WLoop? || s.thr[i].pc.WExit?;
    if s.thr[i].pc.WLoop? { MovableRuns(c, s, i); } else { assert Enabled(c, s, 0); }
  }

  /** Deadlock freedom, for any number of threads and any rounds. */
  lemma NoDeadlock(c: Config, s: State)
    requires WellFormed(c) && Inv(c, s) && !s.thr[0].pc.CDone?
    ensures CanStep(c, s)
  {
    InvShaped(c, s);
    RoundFacts(c, s);
    var pc := s.thr[0].pc;
    if Movable(pc) {
      MovableRuns(c, s, 0);
    } else if pc.CJoin? {
      if c.rounds[s.round].stop { JoinedExits(c, s); } else { assert Enabled(c, s, 0); }
    } else if pc.CCSleep? {
      CollectedWorkerRuns(c, s);
    } else {
      DirigentAwake(c, s);
      SleeperFreed(c, s, 0);
    }
  }
}
