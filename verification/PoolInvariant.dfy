/** The inductive invariant of the pool, stated thread by thread. */
module PoolInvariant {
  import opened Sync
  import opened Pool

  // ----- well-formed configurations ------------------------------------------

  predicate Distinct(g: seq<nat>) {
    forall j, k | 0 <= j < k < |g| :: g[j] != g[k]
  }

  predicate RoundOk(n: nat, r: Round) {
    && |r.group| >= 1 && Distinct(r.group)
    && (forall k | 0 <= k < |r.group| :: r.group[k] < n && (k > 0 ==> r.group[k] != 0))
    && (r.pair ==> r.group[0] == 0)
    && (r.stop ==> |r.group| == 1 && r.group[0] != 0 && r.reps == 1)
  }

  /** What the drivers in main.cc produce: the dirigent comes first, stopped
      threads get no more work, and a step that is kept is reused by a round with
      as many participants. */
  predicate WellFormed(c: Config) {
    && c.n >= 1
    && (forall r | 0 <= r < |c.rounds| :: RoundOk(c.n, c.rounds[r]))
    && (forall r | 0 <= r < |c.rounds| :: forall k | 0 <= k < |c.rounds[r].group| :: !StoppedBefore(c, r, c.rounds[r].group[k]))
    && (forall r | 0 <= r < |c.rounds| && !c.rounds[r].free ::
          r + 1 < |c.rounds| && |Group(c, r + 1)| == |Group(c, r)|)
  }

  /** t ran the stop job in one of the first r rounds. */
  predicate StoppedBefore(c: Config, r: nat, t: nat) {
    r > 0 && r <= |c.rounds| && ((c.rounds[r - 1].stop && t in c.rounds[r - 1].group) || StoppedBefore(c, r - 1, t))
  }

  /** One of the first r rounds left slot 0 uncollected. */
  predicate StuckBefore(c: Config, r: nat) {
    r > 0 && r <= |c.rounds| && (c.rounds[r - 1].pair || StuckBefore(c, r - 1))
  }

  /** The repetitions thread t owes for the first r rounds. */
  function CallsBefore(c: Config, r: nat, t: nat): nat {
    if r == 0 || r > |c.rounds| then 0
    else CallsBefore(c, r - 1, t) + (if t in c.rounds[r - 1].group then c.rounds[r - 1].reps else 0)
  }

  /** The threads stopped in the first r rounds, in order. */
  function StoppedList(c: Config, r: nat): seq<nat> {
    if r == 0 || r > |c.rounds| then []
    else StoppedList(c, r - 1) + (if c.rounds[r - 1].stop then c.rounds[r - 1].group else [])
  }

  /** The dirigent is never given work again after a round that left its mailbox DONE. */
  predicate Collectable(c: Config) {
    CollectableUpTo(c, |c.rounds|)
  }

  predicate CollectableUpTo(c: Config, r: nat) {
    forall j | 0 <= j < r && j < |c.rounds| :: 0 in c.rounds[j].group ==> !StuckBefore(c, j)
  }

  /** The position of t in g, or -1. */
  function IndexOf(g: seq<nat>, t: nat): (i: int)
    ensures -1 <= i < |g|
    ensures i >= 0 ==> g[i] == t
    ensures i < 0 ==> t !in g
  {
    if |g| == 0 then -1
    else if g[|g| - 1] == t then |g| - 1
    else IndexOf(g[..|g| - 1], t)
  }

  lemma IndexUnique(g: seq<nat>, k: nat)
    requires Distinct(g) && k < |g|
    ensures IndexOf(g, g[k]) == k
  {
    var i := IndexOf(g, g[k]);
    assert g[i] == g[k];
  }

  // ----- what the controller has done in the current round -------------------

  /** Slots lo..hi are queued and not yet collected; stuck says that mailbox 0 was
      left DONE for good. */
  datatype View = View(round: nat, lo: nat, hi: nat, stuck: bool)

  function ViewOf(c: Config, s: State): View
    requires |s.thr| > 0
  {
    var pc := s.thr[0].pc;
    var k := s.thr[0].k;
    var m := |Group(c, s.round)|;
    var pair := s.round < |c.rounds| && c.rounds[s.round].pair;
    var before := StuckBefore(c, s.round);
    if pc.CInit? then View(s.round, 0, 0, before)
    else if pc.CFill? || pc.CQLock? || pc.CQSet? then View(s.round, 0, k, before)
    else if pc.CQSignal? || pc.CQUnlock? then View(s.round, 0, k + 1, before)
    else if pc.CCLock? || pc.CCTest? || pc.CCSleep? || pc.CCReacq? then View(s.round, k, m, before || pair)
    else if pc.CCUnlock? then View(s.round, k + 1, m, before || pair)
    else if pc.CJoin? || pc.CFree? then View(s.round, m, m, before || pair)
    else if pc.CDone? then View(s.round, 0, 0, before)
    else View(s.round, 0, m, before)
  }

  /** Calls that thread t has made for the current round's job. */
  function Progress(c: Config, v: View, t: nat, th: Thread, b: Mailbox): nat {
    var i := IndexOf(Group(c, v.round), t);
    if i < 0 || i >= v.hi then 0
    else if i < v.lo || b.s == DONE then c.rounds[v.round].reps
    else if b.s != WORKING then 0
    else if th.pc.WRep? || th.pc.WCall? then th.rep
    else if th.pc.RLock? || th.pc.RSet? then c.rounds[v.round].reps
    else 0
  }

  predicate Stopped(c: Config, v: View, t: nat, th: Thread, b: Mailbox) {
    StoppedBefore(c, v.round, t) ||
    (v.round < |c.rounds| && c.rounds[v.round].stop && Progress(c, v, t, th, b) >= 1)
  }

  /** Mailbox, work pointer, locals and counters of a thread whose job is in slot i. */
  predicate Assigned(c: Config, v: View, slots: seq<Option<Job>>, t: nat, th: Thread, b: Mailbox, i: nat)
    requires v.round < |c.rounds| && i < |c.rounds[v.round].group|
  {
    match b.s
    case IDLE => false
    case QUEUED =>
      && b.work == Some(i) && (PrePc(th.pc) || (t == 0 && QueueingPc(th.pc)))
      && i < |slots| && slots[i] == Some(JobOf(c.rounds[v.round], i))
    case WORKING =>
      && b.work == None && WorkPc(th.pc) && th.held == i
      && i < |slots| && slots[i] == Some(JobOf(c.rounds[v.round], i))
      && (th.pc.WRep? ==> th.rep <= c.rounds[v.round].reps)
      && (th.pc.WCall? ==> th.rep < c.rounds[v.round].reps)
    case DONE =>
      && b.work == Some(i)
      && (ReturnedPc(th.pc) || if t == 0 then CollectingPc(th.pc) else PrePc(th.pc) || th.pc.WExit?)
  }

  predicate Unassigned(v: View, t: nat, th: Thread, b: Mailbox) {
    if t == 0 then
      CtlPc(th.pc) && (if v.stuck then b.s == DONE && b.work == Some(0) else b.s == IDLE && b.work == None)
    else
      (PrePc(th.pc) || th.pc.WExit?) && b.s == IDLE && b.work == None
  }

  predicate RunFlag(c: Config, v: View, t: nat, th: Thread, b: Mailbox) {
    && b.run == !Stopped(c, v, t, th, b)
    && (th.pc.WExit? ==> !b.run)
    && (!b.run ==> th.pc.WRep? || th.pc.RLock? || th.pc.RSet? || ReturnedPc(th.pc) || th.pc.WLoop? || th.pc.WExit?)
  }

  predicate Local(c: Config, v: View, slots: seq<Option<Job>>, t: nat, th: Thread, b: Mailbox) {
    var i := IndexOf(Group(c, v.round), t);
    && th.calls == CallsBefore(c, v.round, t) + Progress(c, v, t, th, b)
    && RunFlag(c, v, t, th, b)
    && (if v.lo <= i < v.hi then Assigned(c, v, slots, t, th, b, i) else Unassigned(v, t, th, b))
  }

  // ----- mutex ownership -------------------------------------------------------

  /** The mailbox mutex that thread t holds. */
  function HeldBox(g: seq<nat>, t: nat, th: Thread): Option<nat> {
    if th.pc.CQSet? || th.pc.CQSignal? || th.pc.CQUnlock? || th.pc.CCTest? || th.pc.CCUnlock? then
      if th.k < |g| then Some(g[th.k]) else None
    else if th.pc.WStartUnlock? || th.pc.WTest? || th.pc.WUnlock? || th.pc.RSet? || ReturnedPc(th.pc) then Some(t)
    else None
  }

  predicate HoldsBarrier(pc: PC) {
    pc.BEnter? || pc.BBroadcast? || pc.BSerialUnlock? || pc.BTest? || pc.BUnlock?
  }

  /** Whoever owns mailbox mutex i is at a place that holds it. */
  predicate OwnerHolds(c: Config, s: State, i: nat)
    requires |s.thr| == c.n && |s.box| == c.n && i < c.n
  {
    var o := s.box[i].owner;
    o.Some? ==> o.value < c.n && HeldBox(Group(c, s.round), o.value, s.thr[o.value]) == Some(i)
  }

  /** What thread t must hold, it owns. */
  predicate HolderOwns(c: Config, s: State, t: nat)
    requires |s.thr| == c.n && |s.box| == c.n && t < c.n
  {
    var h := HeldBox(Group(c, s.round), t, s.thr[t]);
    && (h.Some? ==> h.value < c.n && s.box[h.value].owner == Some(t))
    && (HoldsBarrier(s.thr[t].pc) ==> s.bar.owner == Some(t))
  }

  predicate Owners(c: Config, s: State)
    requires |s.thr| == c.n && |s.box| == c.n
  {
    && (forall i | 0 <= i < c.n :: OwnerHolds(c, s, i))
    && (forall t | 0 <= t < c.n :: HolderOwns(c, s, t))
    && (s.bar.owner.Some? ==> s.bar.owner.value < c.n && HoldsBarrier(s.thr[s.bar.owner.value].pc))
  }

  // ----- no lost wakeup ----------------------------------------------------------

  /** A sleeper whose condition holds is about to be signalled, and until the
      controller has signalled and unlocked nobody takes the work it queued. */
  predicate WakeOk(c: Config, s: State, t: nat)
    requires |s.thr| == c.n && |s.box| == c.n && t < c.n && c.n > 0
  {
    var g := Group(c, s.round);
    var ctl := s.thr[0];
    && (s.thr[t].pc.WSleep? && s.box[t].s == QUEUED ==> ctl.pc.CQSignal? && ctl.k < |g| && g[ctl.k] == t)
    && (t == 0 && ctl.pc.CCSleep? && ctl.k < |g| && g[ctl.k] < c.n && s.box[g[ctl.k]].s == DONE ==> s.thr[g[ctl.k]].pc.RSignal?)
    && (t == 0 && (ctl.pc.CQSignal? || ctl.pc.CQUnlock?) && ctl.k < |g| && g[ctl.k] < c.n ==> s.box[g[ctl.k]].s == QUEUED)
    && (s.thr[t].pc.BSleep? && s.thr[t].saved != s.bar.phase ==>
          s.bar.owner.Some? && s.bar.owner.value < c.n && s.thr[s.bar.owner.value].pc.BBroadcast?)
  }

  // ----- the barrier ---------------------------------------------------------------

  datatype Place = Outside | Before | At | After

  /** Where thread t stands relative to the current round's barrier. */
  function PlaceOf(c: Config, v: View, phase: nat, t: nat, th: Thread, b: Mailbox): Place {
    var i := IndexOf(Group(c, v.round), t);
    if i < 0 then Outside
    else if i < v.lo then After
    else if i >= v.hi || b.s == QUEUED || b.s == IDLE then Before
    else if b.s == DONE then After
    else if BeforeBarrierPc(th.pc) then Before
    else if WaitingPc(th.pc) && th.saved == phase then At
    else After
  }

  function PlaceIn(c: Config, s: State, t: nat): Place
    requires |s.thr| == c.n && |s.box| == c.n && t < c.n
  {
    PlaceOf(c, ViewOf(c, s), s.bar.phase, t, s.thr[t], s.box[t])
  }

  /** The threads waiting in the current phase. */
  function AtBarrier(c: Config, s: State): set<nat>
    requires |s.thr| == c.n && |s.box| == c.n
  {
    set t: nat | t < c.n && PlaceIn(c, s, t) == At
  }

  /** init_step has run and free_step has not. */
  predicate StepLive(c: Config, s: State)
    requires |s.thr| > 0
  {
    s.round < |c.rounds| && !(s.thr[0].pc.CInit? && Fresh(c, s.round))
  }

  predicate BarrierOk(c: Config, s: State)
    requires |s.thr| == c.n && |s.box| == c.n && c.n > 0
  {
    && s.alive == StepLive(c, s)
    && 0 <= s.bar.phase < PHASES
    && (s.alive ==> && |s.slots| == |Group(c, s.round)|
                    && s.bar.limit == |Group(c, s.round)|
                    && s.bar.count < s.bar.limit
                    && s.bar.count == |AtBarrier(c, s)|)
    && (forall t, u | 0 <= t < c.n && 0 <= u < c.n && PlaceIn(c, s, t) == After ::
          PlaceIn(c, s, u) == After || PlaceIn(c, s, u) == Outside)
  }

  // ----- the controller ----------------------------------------------------------------

  predicate ControllerOk(c: Config, s: State)
    requires |s.thr| == c.n && c.n > 0
  {
    var th := s.thr[0];
    && s.round <= |c.rounds|
    && (th.pc.CDone? <==> s.round == |c.rounds|)
    && CollectableUpTo(c, s.round)
    && (s.round < |c.rounds| ==>
          var r := c.rounds[s.round];
          && (CtlPc(th.pc) ==> th.k < |r.group|)
          && (th.pc.CInit? || th.pc.CJoin? || th.pc.CFree? ==> th.k == 0)
          && (!CtlPc(th.pc) ==> |r.group| > 0 && r.group[0] == 0)
          && (CollectingPc(th.pc) ==> th.k >= FirstCollected(c, s.round))
          && (ViewOf(c, s).hi > 0 && 0 in r.group ==> !StuckBefore(c, s.round))
          && (th.pc.CQLock? || th.pc.CQSet? ==>
                th.k < |s.slots| && s.slots[th.k] == Some(JobOf(r, th.k))))
    && s.joined == StoppedList(c, s.round) +
         (if th.pc.CFree? && s.round < |c.rounds| && c.rounds[s.round].stop then c.rounds[s.round].group else [])
  }

  predicate Sizes(c: Config, s: State) {
    |s.thr| == c.n && |s.box| == c.n && c.n > 0
  }

  predicate LocalIn(c: Config, s: State, t: nat)
    requires Sizes(c, s) && t < c.n
  {
    Local(c, ViewOf(c, s), s.slots, t, s.thr[t], s.box[t])
  }

  predicate Locals(c: Config, s: State)
    requires Sizes(c, s)
  {
    forall t | 0 <= t < c.n :: LocalIn(c, s, t)
  }

  predicate Wakes(c: Config, s: State)
    requires Sizes(c, s)
  {
    forall t | 0 <= t < c.n :: WakeOk(c, s, t)
  }

  /** Worker threads never run controller code. */
  predicate Roles(c: Config, s: State)
    requires Sizes(c, s)
  {
    forall t | 0 < t < c.n :: !CtlPc(s.thr[t].pc)
  }

  predicate Inv(c: Config, s: State) {
    && Sizes(c, s) && !s.failed
    && ControllerOk(c, s) && Locals(c, s) && Roles(c, s)
    && Owners(c, s) && Wakes(c, s) && BarrierOk(c, s)
  }

  // ----- first consequences ---------------------------------------------------------------

  lemma LoopFacts(c: Config, v: View, slots: seq<Option<Job>>, t: nat, th: Thread, b: Mailbox)
    requires Local(c, v, slots, t, th, b) && (th.pc.WRep? || th.pc.WCall?)
    ensures th.held < |slots| && slots[th.held].Some?
    ensures slots[th.held].value.stop.Some? ==> slots[th.held].value.stop.value == t
  {
  }

  lemma RoundsShaped(c: Config)
    requires WellFormed(c)
    ensures forall r | 0 <= r < |c.rounds| ::
              |c.rounds[r].group| >= 1 && forall k | 0 <= k < |c.rounds[r].group| :: c.rounds[r].group[k] < c.n
  {
    forall r | 0 <= r < |c.rounds|
      ensures |c.rounds[r].group| >= 1 && forall k | 0 <= k < |c.rounds[r].group| :: c.rounds[r].group[k] < c.n
    {
      assert RoundOk(c.n, c.rounds[r]);
    }
  }

  lemma ThreadsShaped(c: Config, s: State)
    requires Sizes(c, s) && Locals(c, s)
    ensures forall t | 0 <= t < c.n :: (s.thr[t].pc.WRep? || s.thr[t].pc.WCall?) ==>
              s.thr[t].held < |s.slots| && s.slots[s.thr[t].held].Some? &&
              (s.slots[s.thr[t].held].value.stop.Some? ==> s.slots[s.thr[t].held].value.stop.value < c.n)
  {
    forall t | 0 <= t < c.n && (s.thr[t].pc.WRep? || s.thr[t].pc.WCall?)
      ensures s.thr[t].held < |s.slots| && s.slots[s.thr[t].held].Some? &&
              (s.slots[s.thr[t].held].value.stop.Some? ==> s.slots[s.thr[t].held].value.stop.value < c.n)
    {
      assert LocalIn(c, s, t);
      LoopFacts(c, ViewOf(c, s), s.slots, t, s.thr[t], s.box[t]);
    }
  }

  lemma ControllerShaped(c: Config, s: State)
    requires Sizes(c, s) && ControllerOk(c, s) && BarrierOk(c, s)
    ensures if s.thr[0].pc.CDone? then s.round == |c.rounds| else s.round < |c.rounds|
    ensures CtlPc(s.thr[0].pc) && !s.thr[0].pc.CDone? ==> s.thr[0].k < |Group(c, s.round)|
    ensures s.thr[0].pc.CFill? ==> s.thr[0].k < |s.slots|
  {
  }

  lemma InvShaped(c: Config, s: State)
    requires WellFormed(c) && Inv(c, s)
    ensures Shaped(c, s)
  {
    RoundsShaped(c);
    ThreadsShaped(c, s);
    ControllerShaped(c, s);
  }

  lemma StartLocals(c: Config)
    requires WellFormed(c)
    ensures Locals(c, Start(c))
    ensures forall t | 0 <= t < c.n :: PlaceIn(c, Start(c), t) == Outside || PlaceIn(c, Start(c), t) == Before
  {
    var s := Start(c);
    assert ViewOf(c, s) == View(0, 0, 0, false);
    forall t | 0 <= t < c.n
      ensures LocalIn(c, s, t)
      ensures PlaceIn(c, s, t) == Outside || PlaceIn(c, s, t) == Before
    {
      assert s.box[t] == Mailbox(None, IDLE, None, true);
    }
  }

  lemma StartController(c: Config)
    requires WellFormed(c)
    ensures ControllerOk(c, Start(c))
  {
    if |c.rounds| > 0 {
      assert RoundOk(c.n, c.rounds[0]);
    }
  }

  lemma StartSync(c: Config)
    requires WellFormed(c)
    ensures Owners(c, Start(c)) && Wakes(c, Start(c))
  {
  }

  lemma StartBarrier(c: Config)
    requires WellFormed(c)
    ensures BarrierOk(c, Start(c))
  {
    StartLocals(c);
  }

  lemma StartInv(c: Config)
    requires WellFormed(c)
    ensures Inv(c, Start(c))
  {
    StartLocals(c);
    StartController(c);
    StartSync(c);
    StartBarrier(c);
  }
}
