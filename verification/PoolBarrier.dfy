/** Arriving at the barrier and the broadcast keep the invariant. */
module PoolBarrier {
  import opened Sync
  import opened Sums
  import opened Pool
  import opened PoolInvariant
  import opened PoolFrames
  import opened PoolQuiet
  import opened PoolWorker

  // ----- counting the members --------------------------------------------------

  function Members(g: seq<nat>): set<nat> {
    set k: nat | k < |g| :: g[k]
  }

  lemma {:induction false} MembersSize(g: seq<nat>)
    requires Distinct(g)
    ensures |Members(g)| == |g|
  {
    if |g| > 0 {
      var h := g[..|g| - 1];
      MembersSize(h);
      assert Members(g) == Members(h) + {g[|g| - 1]} by {
        forall x | x in Members(g) ensures x in Members(h) + {g[|g| - 1]} {
          var k: nat :| k < |g| && g[k] == x;
          if k < |h| { assert h[k] == x; }
        }
        forall x | x in Members(h) ensures x in Members(g) {
          var k: nat :| k < |h| && h[k] == x;
          assert g[k] == x;
        }
        assert g[|g| - 1] in Members(g);
      }
      assert g[|g| - 1] !in Members(h);
    }
  }

  /** A member that has not arrived leaves room: count < limit - 1, or everybody
      else is waiting. */
  lemma OthersWaiting(c: Config, s: State, t: nat)
    requires Sizes(c, s) && t < c.n
    requires Distinct(Group(c, s.round))
    requires IndexOf(Group(c, s.round), t) >= 0 && PlaceIn(c, s, t) != At
    requires |AtBarrier(c, s)| + 1 >= |Group(c, s.round)|
    ensures forall u | 0 <= u < c.n && u != t :: PlaceIn(c, s, u) == At || PlaceIn(c, s, u) == Outside
  {
    var g := Group(c, s.round);
    var m := Members(g);
    MembersSize(g);
    assert g[IndexOf(g, t)] in m;
    AtAreMembers(c, s);
    SubsetSize(AtBarrier(c, s), m - {t});
    assert AtBarrier(c, s) == m - {t};
    forall u | 0 <= u < c.n && u != t
      ensures PlaceIn(c, s, u) == At || PlaceIn(c, s, u) == Outside
    {
      if IndexOf(g, u) >= 0 {
        assert g[IndexOf(g, u)] in m;
        assert u in AtBarrier(c, s);
      }
    }
  }

  lemma AtAreMembers(c: Config, s: State)
    requires Sizes(c, s)
    ensures AtBarrier(c, s) <= Members(Group(c, s.round))
  {
    var g := Group(c, s.round);
    forall u | u in AtBarrier(c, s)
      ensures u in Members(g)
    {
      assert PlaceIn(c, s, u) == At;
      assert ViewOf(c, s).round == s.round;
      assert g[IndexOf(g, u)] == u;
    }
  }

  // ----- arriving -----------------------------------------------------------------

  lemma EnterLocal(c: Config, v: View, slots: seq<Option<Job>>, t: nat, th: Thread, b: Mailbox, bar: Barrier)
    requires Local(c, v, slots, t, th, b) && th.pc.BEnter?
    ensures Local(c, v, slots, t, BarrierThread(th, bar), b)
    ensures IndexOf(Group(c, v.round), t) >= 0
    ensures PlaceOf(c, v, bar.phase, t, th, b) == Before
    ensures !Completes(bar) ==> PlaceOf(c, v, bar.phase, t, BarrierThread(th, bar), b) == At
    ensures forall p | Completes(bar) :: PlaceOf(c, v, p, t, BarrierThread(th, bar), b) == After
  {
  }

  lemma EnterOwners(c: Config, s: State, t: nat)
    requires Sizes(c, s) && t < c.n && Owners(c, s) && s.thr[t].pc.BEnter?
    ensures Owners(c, BarrierStep(s, t))
  {
    var s' := BarrierStep(s, t);
    assert HolderOwns(c, s, t);
    forall u | 0 <= u < c.n
      ensures HolderOwns(c, s', u) && OwnerHolds(c, s', u)
    {
      assert HolderOwns(c, s, u);
      assert OwnerHolds(c, s, u);
    }
  }

  lemma EnterWakes(c: Config, s: State, t: nat)
    requires Sizes(c, s) && t < c.n && Wakes(c, s) && Owners(c, s) && s.thr[t].pc.BEnter?
    ensures Wakes(c, BarrierStep(s, t))
  {
    var s' := BarrierStep(s, t);
    assert HolderOwns(c, s, t);
    forall u | 0 <= u < c.n
      ensures WakeOk(c, s', u)
    {
      assert WakeOk(c, s, u);
    }
  }

  lemma EnterView(c: Config, s: State, t: nat)
    requires Sizes(c, s) && t < c.n && s.thr[t].pc.BEnter?
    ensures ViewOf(c, BarrierStep(s, t)) == ViewOf(c, s)
    ensures StepLive(c, BarrierStep(s, t)) == StepLive(c, s)
  {
  }

  lemma EnterOtherPlaces(c: Config, s: State, t: nat)
    requires Sizes(c, s) && t < c.n && s.thr[t].pc.BEnter? && !Completes(s.bar)
    ensures forall u | 0 <= u < c.n && u != t :: PlaceIn(c, BarrierStep(s, t), u) == PlaceIn(c, s, u)
  {
    EnterView(c, s, t);
  }

  lemma EnterWaits(c: Config, s: State, t: nat)
    requires Sizes(c, s) && t < c.n && BarrierOk(c, s)
    requires s.thr[t].pc.BEnter? && s.alive && !Completes(s.bar)
    requires PlaceIn(c, s, t) == Before && PlaceIn(c, BarrierStep(s, t), t) == At
    ensures BarrierOk(c, BarrierStep(s, t))
  {
    var s' := BarrierStep(s, t);
    EnterView(c, s, t);
    EnterOtherPlaces(c, s, t);
    assert AtBarrier(c, s') == AtBarrier(c, s) + {t};
    forall u | 0 <= u < c.n
      ensures PlaceIn(c, s', u) != After
    {
      assert u != t ==> PlaceIn(c, s, u) != After;
    }
  }

  /** A thread waiting in the old phase has been released by the new one. */
  lemma PhaseReleases(c: Config, v: View, phase: nat, t: nat, th: Thread, b: Mailbox)
    requires PlaceOf(c, v, phase, t, th, b) == At && phase < PHASES
    ensures PlaceOf(c, v, NextPhase(phase), t, th, b) == After
  {
  }

  lemma EnterCompletes(c: Config, s: State, t: nat)
    requires Sizes(c, s) && t < c.n && BarrierOk(c, s)
    requires PlaceIn(c, s, t) == Before && IndexOf(Group(c, s.round), t) >= 0 && PlaceIn(c, BarrierStep(s, t), t) == After
    requires Distinct(Group(c, s.round))
    requires s.thr[t].pc.BEnter? && s.alive && Completes(s.bar)
    ensures BarrierOk(c, BarrierStep(s, t))
  {
    var s' := BarrierStep(s, t);
    EnterView(c, s, t);
    OthersWaiting(c, s, t);
    forall u | 0 <= u < c.n
      ensures PlaceIn(c, s', u) == After || PlaceIn(c, s', u) == Outside
    {
      if u != t && PlaceIn(c, s, u) == At {
        PhaseReleases(c, ViewOf(c, s), s.bar.phase, u, s.thr[u], s.box[u]);
      }
    }
    assert AtBarrier(c, s') == {};
  }

  lemma EnterController(c: Config, s: State, t: nat)
    requires Sizes(c, s) && t < c.n && ControllerOk(c, s) && s.thr[t].pc.BEnter?
    ensures ControllerOk(c, BarrierStep(s, t))
  {
    EnterView(c, s, t);
  }

  lemma EnterLocals(c: Config, s: State, t: nat)
    requires Sizes(c, s) && t < c.n && s.thr[t].pc.BEnter? && Locals(c, s) && Roles(c, s)
    ensures Locals(c, BarrierStep(s, t)) && Roles(c, BarrierStep(s, t))
  {
    var s' := BarrierStep(s, t);
    assert LocalIn(c, s, t);
    EnterView(c, s, t);
    EnterLocal(c, ViewOf(c, s), s.slots, t, s.thr[t], s.box[t], s.bar);
    KeepLocals(c, s, s', t);
  }

  lemma EnterPlaces(c: Config, s: State, t: nat)
    requires Sizes(c, s) && t < c.n && s.thr[t].pc.BEnter? && LocalIn(c, s, t)
    ensures PlaceIn(c, s, t) == Before && IndexOf(Group(c, s.round), t) >= 0
    ensures !Completes(s.bar) ==> PlaceIn(c, BarrierStep(s, t), t) == At
    ensures Completes(s.bar) ==> PlaceIn(c, BarrierStep(s, t), t) == After
  {
    EnterView(c, s, t);
    EnterLocal(c, ViewOf(c, s), s.slots, t, s.thr[t], s.box[t], s.bar);
  }

  lemma EnterInv(c: Config, s: State, t: nat)
    requires Inv(c, s) && MayStep(c, s, t) && s.thr[t].pc.BEnter?
    requires s.alive && Distinct(Group(c, s.round))
    ensures Inv(c, BarrierStep(s, t))
  {
    assert LocalIn(c, s, t);
    EnterLocals(c, s, t);
    EnterPlaces(c, s, t);
    EnterOwners(c, s, t);
    EnterWakes(c, s, t);
    EnterController(c, s, t);
    if Completes(s.bar) { EnterCompletes(c, s, t); } else { EnterWaits(c, s, t); }
  }

  // ----- the broadcast ----------------------------------------------------------------

  lemma BroadcastLocal(c: Config, v: View, slots: seq<Option<Job>>, phase: nat, t: nat, th: Thread, b: Mailbox, bar: Barrier)
    requires Local(c, v, slots, t, th, b) && th.pc.BBroadcast?
    ensures Local(c, v, slots, t, BarrierThread(th, bar), b)
    ensures PlaceOf(c, v, phase, t, BarrierThread(th, bar), b) == PlaceOf(c, v, phase, t, th, b)
  {
  }

  lemma BroadcastTouches(c: Config, s: State, t: nat)
    requires Sizes(c, s) && t < c.n && s.thr[t].pc.BBroadcast?
    ensures Touches(c, s, BarrierStep(s, t), t)
    ensures ViewOf(c, BarrierStep(s, t)) == ViewOf(c, s)
    ensures StepLive(c, BarrierStep(s, t)) == StepLive(c, s)
    ensures BarrierStep(s, t).bar == s.bar && BarrierStep(s, t).box == s.box
    ensures BarrierStep(s, t).thr[t] == BarrierThread(s.thr[t], s.bar)
    ensures !s.thr[0].pc.BBroadcast? && !s.thr[0].pc.BSleep? ==> BarrierStep(s, t).thr[0] == s.thr[0]
    ensures forall u | 0 <= u < c.n :: !BarrierStep(s, t).thr[u].pc.BSleep?
  {
  }

  lemma BroadcastOwners(c: Config, s: State, t: nat)
    requires Sizes(c, s) && t < c.n && Owners(c, s) && s.thr[t].pc.BBroadcast?
    ensures Owners(c, BarrierStep(s, t))
  {
    assert HolderOwns(c, s, t);
    BroadcastTouches(c, s, t);
    KeepOwnersBar(c, s, BarrierStep(s, t), t);
  }

  lemma BroadcastWakes(c: Config, s: State, t: nat)
    requires Sizes(c, s) && t < c.n && Wakes(c, s) && s.thr[t].pc.BBroadcast?
    ensures Wakes(c, BarrierStep(s, t))
  {
    var s' := BarrierStep(s, t);
    BroadcastTouches(c, s, t);
    forall u | 0 <= u < c.n
      ensures WakeOk(c, s', u)
    {
      assert WakeOk(c, s, u);
      assert WakeOk(c, s, 0);
    }
  }

  lemma BroadcastBarrier(c: Config, s: State, t: nat)
    requires Sizes(c, s) && t < c.n && BarrierOk(c, s) && LocalIn(c, s, t) && s.thr[t].pc.BBroadcast?
    ensures BarrierOk(c, BarrierStep(s, t))
  {
    var s' := BarrierStep(s, t);
    BroadcastTouches(c, s, t);
    BroadcastLocal(c, ViewOf(c, s), s.slots, s.bar.phase, t, s.thr[t], s.box[t], s.bar);
    KeepPlaces(c, s, s', t);
    KeepBarrier(c, s, s');
  }

  lemma BroadcastController(c: Config, s: State, t: nat)
    requires Sizes(c, s) && t < c.n && ControllerOk(c, s) && s.thr[t].pc.BBroadcast?
    ensures ControllerOk(c, BarrierStep(s, t))
  {
    BroadcastTouches(c, s, t);
    assert CtlPc(s.thr[0].pc) ==> BarrierStep(s, t).thr[0] == s.thr[0];
  }

  lemma BroadcastInv(c: Config, s: State, t: nat)
    requires Inv(c, s) && t < c.n && s.thr[t].pc.BBroadcast?
    ensures Inv(c, BarrierStep(s, t))
  {
    assert LocalIn(c, s, t);
    BroadcastLocals(c, s, t);
    BroadcastOwners(c, s, t);
    BroadcastWakes(c, s, t);
    BroadcastController(c, s, t);
    BroadcastBarrier(c, s, t);
  }

  lemma BroadcastLocals(c: Config, s: State, t: nat)
    requires Sizes(c, s) && t < c.n && s.thr[t].pc.BBroadcast? && Locals(c, s) && Roles(c, s)
    ensures Locals(c, BarrierStep(s, t)) && Roles(c, BarrierStep(s, t))
  {
    assert LocalIn(c, s, t);
    BroadcastOwnLocal(c, s, t);
    BroadcastTouches(c, s, t);
    KeepLocals(c, s, BarrierStep(s, t), t);
    KeepRoles(c, s, BarrierStep(s, t), t);
  }

  lemma BroadcastOwnLocal(c: Config, s: State, t: nat)
    requires Sizes(c, s) && t < c.n && s.thr[t].pc.BBroadcast? && LocalIn(c, s, t)
    ensures Sizes(c, BarrierStep(s, t)) && LocalIn(c, BarrierStep(s, t), t)
  {
    BroadcastTouches(c, s, t);
    BroadcastLocal(c, ViewOf(c, s), s.slots, s.bar.phase, t, s.thr[t], s.box[t], s.bar);
  }
}
