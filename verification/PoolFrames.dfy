/** Frame lemmas: what a step leaves alone keeps its part of the invariant. */
module PoolFrames {
  import opened Sync
  import opened Pool
  import opened PoolInvariant

  /** th' is th, possibly woken up. */
  predicate Similar(th: Thread, th': Thread) {
    th' == th || (Asleep(th.pc) && th' == th.(pc := Woken(th.pc)))
  }

  /** The two mailboxes differ at most in their mutex owner. */
  predicate SameMail(b: Mailbox, b': Mailbox) {
    b' == b.(owner := b'.owner)
  }

  /** The step touches thread t and mailbox i; others may only be woken. */
  predicate Touches(c: Config, s: State, s': State, t: nat) {
    && Sizes(c, s) && Sizes(c, s') && t < c.n
    && s'.round == s.round
    && (forall u | 0 <= u < c.n && u != t :: Similar(s.thr[u], s'.thr[u]))
  }

  lemma SimilarLocal(c: Config, v: View, slots: seq<Option<Job>>, t: nat, th: Thread, th': Thread, b: Mailbox, b': Mailbox)
    requires Local(c, v, slots, t, th, b)
    requires Similar(th, th') && SameMail(b, b')
    ensures Local(c, v, slots, t, th', b')
  {
  }

  lemma SimilarPlace(c: Config, v: View, phase: nat, t: nat, th: Thread, th': Thread, b: Mailbox, b': Mailbox)
    requires Similar(th, th') && SameMail(b, b')
    ensures PlaceOf(c, v, phase, t, th', b') == PlaceOf(c, v, phase, t, th, b)
  {
  }

  lemma SimilarView(c: Config, s: State, s': State)
    requires Sizes(c, s) && Sizes(c, s') && s'.round == s.round && Similar(s.thr[0], s'.thr[0])
    ensures ViewOf(c, s') == ViewOf(c, s)
  {
  }

  lemma KeepLocals(c: Config, s: State, s': State, t: nat)
    requires Touches(c, s, s', t) && Locals(c, s) && Roles(c, s)
    requires ViewOf(c, s') == ViewOf(c, s) && s'.slots == s.slots
    requires forall u | 0 <= u < c.n && u != t :: SameMail(s.box[u], s'.box[u])
    requires LocalIn(c, s', t)
    ensures Locals(c, s')
  {
    forall u | 0 <= u < c.n
      ensures LocalIn(c, s', u)
    {
      if u != t {
        assert LocalIn(c, s, u);
        SimilarLocal(c, ViewOf(c, s), s.slots, u, s.thr[u], s'.thr[u], s.box[u], s'.box[u]);
      }
    }
  }

  lemma KeepRoles(c: Config, s: State, s': State, t: nat)
    requires Touches(c, s, s', t) && Roles(c, s)
    requires t != 0 ==> !CtlPc(s'.thr[t].pc)
    ensures Roles(c, s')
  {
  }

  lemma KeepPlaces(c: Config, s: State, s': State, t: nat)
    requires Touches(c, s, s', t)
    requires ViewOf(c, s') == ViewOf(c, s) && s'.bar.phase == s.bar.phase
    requires forall u | 0 <= u < c.n && u != t :: SameMail(s.box[u], s'.box[u])
    ensures forall u | 0 <= u < c.n && u != t :: PlaceIn(c, s', u) == PlaceIn(c, s, u)
  {
    forall u | 0 <= u < c.n && u != t
      ensures PlaceIn(c, s', u) == PlaceIn(c, s, u)
    {
      SimilarPlace(c, ViewOf(c, s), s.bar.phase, u, s.thr[u], s'.thr[u], s.box[u], s'.box[u]);
    }
  }

  /** A step that moves nobody relative to the barrier. */
  lemma KeepBarrier(c: Config, s: State, s': State)
    requires Sizes(c, s) && Sizes(c, s') && BarrierOk(c, s)
    requires s'.alive == StepLive(c, s') && s'.round == s.round
    requires s'.alive ==> s.alive && |s'.slots| == |s.slots|
    requires s'.bar.(owner := None) == s.bar.(owner := None)
    requires forall u | 0 <= u < c.n :: PlaceIn(c, s', u) == PlaceIn(c, s, u)
    ensures BarrierOk(c, s')
  {
    assert AtBarrier(c, s') == AtBarrier(c, s);
  }

  /** A step that changes which mailbox mutex t holds. */
  lemma KeepOwnersBox(c: Config, s: State, s': State, t: nat)
    requires Touches(c, s, s', t) && Owners(c, s)
    requires s'.bar.owner == s.bar.owner && HoldsBarrier(s'.thr[t].pc) == HoldsBarrier(s.thr[t].pc)
    requires var g := Group(c, s.round);
             var h, h' := HeldBox(g, t, s.thr[t]), HeldBox(g, t, s'.thr[t]);
             && (h'.Some? ==> h'.value < c.n && (h' == h || s.box[h'.value].owner == None))
             && (forall i | 0 <= i < c.n :: s'.box[i].owner ==
                  if Some(i) == h' then Some(t) else if Some(i) == h then None else s.box[i].owner)
    ensures Owners(c, s')
  {
    assert HolderOwns(c, s, t);
    forall u | 0 <= u < c.n
      ensures HolderOwns(c, s', u)
    {
      assert HolderOwns(c, s, u);
    }
    forall i | 0 <= i < c.n
      ensures OwnerHolds(c, s', i)
    {
      assert OwnerHolds(c, s, i);
    }
    if s.bar.owner.Some? {
      assert HolderOwns(c, s, s.bar.owner.value);
    }
  }

  /** A step that changes whether t holds the barrier's mutex. */
  lemma KeepOwnersBar(c: Config, s: State, s': State, t: nat)
    requires Touches(c, s, s', t) && Owners(c, s)
    requires s'.box == s.box
    requires HeldBox(Group(c, s.round), t, s.thr[t]) == HeldBox(Group(c, s.round), t, s'.thr[t]) == None
    requires var h, h' := HoldsBarrier(s.thr[t].pc), HoldsBarrier(s'.thr[t].pc);
             && (h' && !h ==> s.bar.owner == None)
             && s'.bar.owner == if h' then Some(t) else if h then None else s.bar.owner
    ensures Owners(c, s')
  {
    assert HolderOwns(c, s, t);
    forall u | 0 <= u < c.n
      ensures HolderOwns(c, s', u) && OwnerHolds(c, s', u)
    {
      assert HolderOwns(c, s, u);
      assert OwnerHolds(c, s, u);
    }
  }

  /** A step that signals nobody and changes only t's own mailbox. */
  lemma KeepWakes(c: Config, s: State, s': State, t: nat)
    requires Touches(c, s, s', t) && Wakes(c, s) && Owners(c, s) && Owners(c, s')
    requires s'.bar.phase == s.bar.phase
    requires !s.thr[t].pc.CQSignal? && !s.thr[t].pc.RSignal? && !s.thr[t].pc.BBroadcast?
    requires forall u | 0 <= u < c.n && u != t :: SameMail(s.box[u], s'.box[u])
    requires s'.thr[t].pc.WSleep? ==> s'.box[t].s != QUEUED
    requires s'.thr[t].pc.BSleep? ==> s'.thr[t].saved == s.bar.phase
    requires t == 0 && s'.thr[0].pc.CCSleep? ==>
               var g, k := Group(c, s.round), s'.thr[0].k;
               k < |g| && g[k] < c.n ==> s'.box[g[k]].s != DONE
    requires s'.box[t].s == DONE ==> s.box[t].s == DONE || s'.thr[t].pc.RSignal?
    requires s'.box[t].s != s.box[t].s ==> HeldBox(Group(c, s.round), t, s.thr[t]) == Some(t)
    requires t == 0 && CtlPc(s'.thr[0].pc) ==> s'.box[0].s == s.box[0].s && !s'.thr[0].pc.CQSignal? && !s'.thr[0].pc.CQUnlock?
    ensures Wakes(c, s')
  {
    forall u | 0 <= u < c.n
      ensures WakeOk(c, s', u)
    {
      assert WakeOk(c, s, u);
      assert HolderOwns(c, s, t) && HolderOwns(c, s, u);
      if s'.thr[u].pc.BSleep? && s'.thr[u].saved != s'.bar.phase {
        assert HolderOwns(c, s, s.bar.owner.value);
        assert s.bar.owner.value != t;
        assert HolderOwns(c, s', s.bar.owner.value);
      }
    }
  }
}
