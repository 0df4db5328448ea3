/** Steps of one thread on its own mailbox and the barrier's mutex.  If the step
    is right locally, the whole invariant is kept. */
module PoolQuiet {
  import opened Sync
  import opened Pool
  import opened PoolInvariant
  import opened PoolFrames

  function Quiet(s: State, t: nat, th': Thread, b': Mailbox, o': Option<nat>): State
    requires t < |s.thr| == |s.box|
  {
    s.(thr := s.thr[t := th'], box := s.box[t := b'], bar := s.bar.(owner := o'))
  }

  /** The mutexes change hands as the program counter says. */
  predicate LocksOk(t: nat, th: Thread, b: Mailbox, o: Option<nat>, th': Thread, b': Mailbox, o': Option<nat>) {
    var h, h' := HeldBox([], t, th), HeldBox([], t, th');
    && (h'.Some? && h.None? ==> b.owner == None)
    && b'.owner == (if h'.Some? then Some(t) else if h.Some? then None else b.owner)
    && (HoldsBarrier(th'.pc) && !HoldsBarrier(th.pc) ==> o == None)
    && o' == (if HoldsBarrier(th'.pc) then Some(t) else if HoldsBarrier(th.pc) then None else o)
  }

  /** The step sends no signal and puts nobody to sleep wrongly. */
  predicate SleepsOk(t: nat, phase: nat, th: Thread, b: Mailbox, th': Thread, b': Mailbox) {
    && !th.pc.RSignal? && !th.pc.BBroadcast?
    && (b'.s != b.s ==> HeldBox([], t, th).Some?)
    && (th'.pc.WSleep? ==> b'.s != QUEUED)
    && (th'.pc.BSleep? ==> th'.saved == phase)
    && (b'.s == DONE ==> b.s == DONE || th'.pc.RSignal?)
  }

  predicate WorkerMove(th: Thread, th': Thread) {
    !CtlPc(th.pc) && !CtlPc(th'.pc) && th'.k == th.k
  }

  lemma QuietView(c: Config, s: State, t: nat, th': Thread, b': Mailbox, o': Option<nat>)
    requires Sizes(c, s) && t < c.n && WorkerMove(s.thr[t], th')
    ensures ViewOf(c, Quiet(s, t, th', b', o')) == ViewOf(c, s)
    ensures StepLive(c, Quiet(s, t, th', b', o')) == StepLive(c, s)
  {
  }

  lemma QuietLocals(c: Config, s: State, t: nat, th': Thread, b': Mailbox, o': Option<nat>)
    requires Sizes(c, s) && t < c.n && WorkerMove(s.thr[t], th')
    requires Locals(c, s) && Roles(c, s)
    requires Local(c, ViewOf(c, s), s.slots, t, th', b')
    ensures Locals(c, Quiet(s, t, th', b', o')) && Roles(c, Quiet(s, t, th', b', o'))
  {
    var s' := Quiet(s, t, th', b', o');
    QuietView(c, s, t, th', b', o');
    KeepLocals(c, s, s', t);
  }

  lemma QuietOwners(c: Config, s: State, t: nat, th': Thread, b': Mailbox, o': Option<nat>)
    requires Sizes(c, s) && t < c.n && WorkerMove(s.thr[t], th')
    requires Owners(c, s)
    requires LocksOk(t, s.thr[t], s.box[t], s.bar.owner, th', b', o')
    ensures Owners(c, Quiet(s, t, th', b', o'))
  {
    var s' := Quiet(s, t, th', b', o');
    assert HolderOwns(c, s, t);
    forall u | 0 <= u < c.n
      ensures HolderOwns(c, s', u) && OwnerHolds(c, s', u)
    {
      assert HolderOwns(c, s, u);
      assert OwnerHolds(c, s, u);
    }
  }

  lemma QuietWakes(c: Config, s: State, t: nat, th': Thread, b': Mailbox, o': Option<nat>)
    requires Sizes(c, s) && t < c.n && WorkerMove(s.thr[t], th')
    requires Owners(c, s) && Wakes(c, s) && Owners(c, Quiet(s, t, th', b', o'))
    requires SleepsOk(t, s.bar.phase, s.thr[t], s.box[t], th', b')
    ensures Wakes(c, Quiet(s, t, th', b', o'))
  {
    KeepWakes(c, s, Quiet(s, t, th', b', o'), t);
  }

  lemma QuietBarrier(c: Config, s: State, t: nat, th': Thread, b': Mailbox, o': Option<nat>)
    requires Sizes(c, s) && t < c.n && WorkerMove(s.thr[t], th')
    requires BarrierOk(c, s)
    requires PlaceOf(c, ViewOf(c, s), s.bar.phase, t, th', b') == PlaceIn(c, s, t)
    ensures BarrierOk(c, Quiet(s, t, th', b', o'))
  {
    var s' := Quiet(s, t, th', b', o');
    QuietView(c, s, t, th', b', o');
    KeepPlaces(c, s, s', t);
    KeepBarrier(c, s, s');
  }

  lemma QuietController(c: Config, s: State, t: nat, th': Thread, b': Mailbox, o': Option<nat>)
    requires Sizes(c, s) && t < c.n && WorkerMove(s.thr[t], th')
    requires ControllerOk(c, s)
    ensures ControllerOk(c, Quiet(s, t, th', b', o'))
  {
    QuietView(c, s, t, th', b', o');
  }

  /** The step is right locally. */
  predicate QuietOk(c: Config, s: State, t: nat, th': Thread, b': Mailbox, o': Option<nat>)
    requires Sizes(c, s) && t < c.n
  {
    && WorkerMove(s.thr[t], th')
    && Local(c, ViewOf(c, s), s.slots, t, th', b')
    && PlaceOf(c, ViewOf(c, s), s.bar.phase, t, th', b') == PlaceIn(c, s, t)
    && LocksOk(t, s.thr[t], s.box[t], s.bar.owner, th', b', o')
    && SleepsOk(t, s.bar.phase, s.thr[t], s.box[t], th', b')
  }

  lemma QuietInv(c: Config, s: State, t: nat, th': Thread, b': Mailbox, o': Option<nat>)
    requires Inv(c, s) && t < c.n && QuietOk(c, s, t, th', b', o')
    ensures Inv(c, Quiet(s, t, th', b', o'))
  {
    QuietLocals(c, s, t, th', b', o');
    QuietOwners(c, s, t, th', b', o');
    QuietWakes(c, s, t, th', b', o');
    QuietBarrier(c, s, t, th', b', o');
    QuietController(c, s, t, th', b', o');
  }
}
