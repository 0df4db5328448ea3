/** The barrier on its own, reused without bound: `limit` threads that each call
    pthread_barrier_wait `times` times, in any interleaving, with spurious
    wakeups.  The phase counter wraps around; the ghost counters do not. */
module BarrierReuse {
  import opened Sync
  import opened Sums

  datatype PC = Idle | Lock | Enter | Broadcast | SerialUnlock | Sleep | Reacq | Test | Unlock

  /** `arrived` counts the arrivals of the thread, `returned` its return values in
      order: true for PTHREAD_BARRIER_SERIAL_THREAD, false for 0. */
  datatype Thread = Thread(pc: PC, saved: nat, arrived: nat, returned: seq<bool>)

  /** `serial[p]` is the thread that completed phase p. */
  datatype State = State(thr: seq<Thread>, bar: Barrier, serial: seq<nat>)

  datatype Label = Run(t: nat) | Spurious(t: nat)

  // ----- steps ------------------------------------------------------------------------

  function ThreadStep(th: Thread, bar: Barrier): Thread {
    match th.pc
    case Idle => th.(pc := Lock)
    case Lock => th.(pc := Enter)
    case Enter =>
      if Completes(bar) then th.(pc := Broadcast, arrived := th.arrived + 1)
      else th.(pc := Sleep, saved := bar.phase, arrived := th.arrived + 1)
    case Broadcast => th.(pc := SerialUnlock)
    case SerialUnlock => th.(pc := Idle, returned := th.returned + [true])
    case Reacq => th.(pc := Test)
    case Test => if th.saved == bar.phase then th.(pc := Sleep) else th.(pc := Unlock)
    case Unlock => th.(pc := Idle, returned := th.returned + [false])
    case Sleep => th
  }

  function BarStep(t: nat, th: Thread, bar: Barrier): Barrier {
    match th.pc
    case Lock => bar.(owner := Some(t))
    case Enter => if Completes(bar) then Arrive(bar) else Arrive(bar).(owner := None)
    case SerialUnlock => bar.(owner := None)
    case Reacq => bar.(owner := Some(t))
    case Test => if th.saved == bar.phase then bar.(owner := None) else bar
    case Unlock => bar.(owner := None)
    case _ => bar
  }

  function WakeAll(thr: seq<Thread>): (r: seq<Thread>)
    ensures |r| == |thr|
    ensures forall u | 0 <= u < |thr| :: r[u] == if thr[u].pc.Sleep? then thr[u].(pc := Reacq) else thr[u]
  {
    seq(|thr|, u requires 0 <= u < |thr| => if thr[u].pc.Sleep? then thr[u].(pc := Reacq) else thr[u])
  }

  predicate Enabled(times: nat, s: State, t: nat) {
    && t < |s.thr| && !s.thr[t].pc.Sleep?
    && (s.thr[t].pc.Idle? ==> |s.thr[t].returned| < times)
    && (s.thr[t].pc.Lock? || s.thr[t].pc.Reacq? ==> s.bar.owner == None)
  }

  function Exec(s: State, t: nat): State
    requires t < |s.thr|
  {
    var th := s.thr[t];
    State((if th.pc.Broadcast? then WakeAll(s.thr) else s.thr)[t := ThreadStep(th, s.bar)],
          BarStep(t, th, s.bar),
          if th.pc.Enter? && Completes(s.bar) then s.serial + [t] else s.serial)
  }

  predicate Next(times: nat, s: State, l: Label, s': State) {
    match l
    case Run(t) => Enabled(times, s, t) && s' == Exec(s, t)
    case Spurious(t) => t < |s.thr| && s.thr[t].pc.Sleep? && s' == s.(thr := s.thr[t := s.thr[t].(pc := Reacq)])
  }

  function Start(limit: nat): State {
    State(seq(limit, _ => Thread(Idle, 0, 0, [])), Barrier(None, limit, 0, 0), [])
  }

  predicate IsRun(limit: nat, times: nat, states: seq<State>, labels: seq<Label>) {
    && |states| == |labels| + 1 && states[0] == Start(limit)
    && forall j {:trigger labels[j]} | 0 <= j < |labels| :: Next(times, states[j], labels[j], states[j + 1])
  }

  // ----- the invariant -----------------------------------------------------------------

  predicate Waiting(pc: PC) {
    pc.Sleep? || pc.Reacq? || pc.Test?
  }

  predicate Holds(pc: PC) {
    pc.Enter? || pc.Broadcast? || pc.SerialUnlock? || pc.Test? || pc.Unlock?
  }

  /** A thread is never more than one phase away from the barrier: gen phases are
      complete, and it has arrived for gen of them or for one more. */
  predicate ThreadOk(times: nat, gen: nat, t: nat, th: Thread, serial: seq<nat>)
    requires |serial| == gen
  {
    && (th.arrived == gen || th.arrived == gen + 1)
    && (th.arrived == gen + 1 ==> Waiting(th.pc))
    && |th.returned| <= times
    && (if th.pc.Idle? || th.pc.Lock? || th.pc.Enter? then |th.returned| == th.arrived else |th.returned| + 1 == th.arrived)
    && (!th.pc.Idle? ==> |th.returned| < times)
    && (Waiting(th.pc) ==> th.saved == (th.arrived - 1) % PHASES)
    && (forall p | 0 <= p < |th.returned| :: th.returned[p] <==> serial[p] == t)
    && (th.pc.Broadcast? || th.pc.SerialUnlock? ==> serial[th.arrived - 1] == t)
    && ((Waiting(th.pc) && th.arrived == gen) || th.pc.Unlock? ==> serial[th.arrived - 1] != t)
  }

  predicate LocalOk(times: nat, s: State, t: nat)
    requires t < |s.thr|
  {
    ThreadOk(times, |s.serial|, t, s.thr[t], s.serial)
  }

  predicate LockOk(s: State, t: nat)
    requires t < |s.thr|
  {
    (Holds(s.thr[t].pc) ==> s.bar.owner == Some(t)) &&
    (s.thr[t].pc.Sleep? && s.thr[t].arrived == |s.serial| ==>
       s.bar.owner.Some? && s.bar.owner.value < |s.thr| && s.thr[s.bar.owner.value].pc.Broadcast?)
  }

  function Arrived(s: State): set<nat> {
    set t: nat | t < |s.thr| && s.thr[t].arrived == |s.serial| + 1
  }

  predicate Inv(limit: nat, times: nat, s: State) {
    && |s.thr| == limit >= 1
    && s.bar.limit == limit && s.bar.phase == |s.serial| % PHASES
    && s.bar.count < limit && s.bar.count == |Arrived(s)|
    && (forall t | 0 <= t < limit :: LocalOk(times, s, t))
    && (forall t | 0 <= t < limit :: LockOk(s, t))
    && (s.bar.owner.Some? ==> s.bar.owner.value < limit && Holds(s.thr[s.bar.owner.value].pc))
    && (forall p | 0 <= p < |s.serial| :: s.serial[p] < limit)
  }

  // ----- preservation --------------------------------------------------------------------

  lemma ModNext(gen: nat)
    ensures NextPhase(gen % PHASES) == (gen + 1) % PHASES
    ensures (gen + 1) % PHASES != gen % PHASES
  {
  }

  /** The test `phase == barrier->phase` means exactly that the thread's own phase
      is not complete, however often the counter has wrapped. */
  lemma TestIsExact(times: nat, s: State, t: nat)
    requires t < |s.thr| && LocalOk(times, s, t) && Waiting(s.thr[t].pc)
    requires s.bar.phase == |s.serial| % PHASES
    ensures s.thr[t].saved == s.bar.phase <==> s.thr[t].arrived == |s.serial| + 1
  {
    var a := s.thr[t].arrived;
    if a == |s.serial| {
      ModNext(a - 1);
    }
  }

  /** The threads 0, 1, .., n - 1. */
  function Below(n: nat): (r: set<nat>)
    ensures |r| == n
    ensures forall t: nat :: t in r <==> t < n
  {
    if n == 0 then {} else Below(n - 1) + {n - 1}
  }

  lemma AllButOne(s: State, t: nat)
    requires t < |s.thr| && s.thr[t].arrived == |s.serial|
    requires |Arrived(s)| + 1 >= |s.thr|
    ensures forall u | 0 <= u < |s.thr| && u != t :: s.thr[u].arrived == |s.serial| + 1
  {
    var rest := Below(|s.thr|) - {t};
    assert Arrived(s) <= rest;
    assert rest == Arrived(s) + (rest - Arrived(s));
    forall u | 0 <= u < |s.thr| && u != t
      ensures s.thr[u].arrived == |s.serial| + 1
    {
      assert u in rest;
      assert u in Arrived(s);
    }
  }

  lemma ThreadKeeps(times: nat, gen: nat, t: nat, th: Thread, bar: Barrier, serial: seq<nat>)
    requires |serial| == gen && ThreadOk(times, gen, t, th, serial)
    requires bar.phase == gen % PHASES
    requires !th.pc.Sleep? && (th.pc.Idle? ==> |th.returned| < times)
    requires th.pc.Test? ==> (th.saved == bar.phase <==> th.arrived == gen + 1)
    requires th.pc.Enter? ==> !Completes(bar)
    ensures ThreadOk(times, gen, t, ThreadStep(th, bar), serial)
    ensures !th.pc.Enter? ==> ThreadStep(th, bar).arrived == th.arrived
  {
  }

  lemma Completed(times: nat, gen: nat, t: nat, u: nat, th: Thread, serial: seq<nat>)
    requires |serial| == gen && ThreadOk(times, gen, u, th, serial)
    requires th.arrived == gen + 1 && u != t
    ensures ThreadOk(times, gen + 1, u, th, serial + [t])
  {
    assert Waiting(th.pc);
  }

  lemma Completer(times: nat, gen: nat, t: nat, th: Thread, bar: Barrier, serial: seq<nat>)
    requires |serial| == gen && ThreadOk(times, gen, t, th, serial) && th.pc.Enter? && Completes(bar)
    ensures ThreadOk(times, gen + 1, t, ThreadStep(th, bar), serial + [t])
  {
  }

  lemma QuietStep(limit: nat, times: nat, s: State, t: nat)
    requires Inv(limit, times, s) && Enabled(times, s, t)
    requires !s.thr[t].pc.Enter? && !s.thr[t].pc.Broadcast?
    ensures Inv(limit, times, Exec(s, t))
  {
    var s' := Exec(s, t);
    assert LocalOk(times, s, t) && LockOk(s, t);
    if s.thr[t].pc.Test? { TestIsExact(times, s, t); }
    ThreadKeeps(times, |s.serial|, t, s.thr[t], s.bar, s.serial);
    assert Arrived(s') == Arrived(s);
    forall u | 0 <= u < limit ensures LocalOk(times, s', u) && LockOk(s', u) {
      assert LocalOk(times, s, u) && LockOk(s, u);
    }
  }

  lemma ArriveStep(limit: nat, times: nat, s: State, t: nat)
    requires Inv(limit, times, s) && Enabled(times, s, t) && s.thr[t].pc.Enter? && !Completes(s.bar)
    ensures Inv(limit, times, Exec(s, t))
  {
    var s' := Exec(s, t);
    assert LocalOk(times, s, t) && LockOk(s, t);
    ThreadKeeps(times, |s.serial|, t, s.thr[t], s.bar, s.serial);
    assert s.thr[t].arrived == |s.serial|;
    assert Arrived(s') == Arrived(s) + {t};
    forall u | 0 <= u < limit ensures LocalOk(times, s', u) && LockOk(s', u) {
      assert LocalOk(times, s, u) && LockOk(s, u);
    }
  }

  lemma CompleteStep(limit: nat, times: nat, s: State, t: nat)
    requires Inv(limit, times, s) && Enabled(times, s, t) && s.thr[t].pc.Enter? && Completes(s.bar)
    ensures Inv(limit, times, Exec(s, t))
  {
    var s' := Exec(s, t);
    assert LocalOk(times, s, t) && LockOk(s, t);
    AllButOne(s, t);
    ModNext(|s.serial|);
    Completer(times, |s.serial|, t, s.thr[t], s.bar, s.serial);
    assert Arrived(s') == {};
    forall u | 0 <= u < limit ensures LocalOk(times, s', u) && LockOk(s', u) {
      assert LocalOk(times, s, u) && LockOk(s, u);
      if u != t {
        Completed(times, |s.serial|, t, u, s.thr[u], s.serial);
      }
    }
  }

  lemma BroadcastStep(limit: nat, times: nat, s: State, t: nat)
    requires Inv(limit, times, s) && Enabled(times, s, t) && s.thr[t].pc.Broadcast?
    ensures Inv(limit, times, Exec(s, t))
  {
    var s' := Exec(s, t);
    assert LocalOk(times, s, t) && LockOk(s, t);
    assert forall u | 0 <= u < limit :: s'.thr[u].arrived == s.thr[u].arrived;
    assert Arrived(s') == Arrived(s);
    forall u | 0 <= u < limit ensures LocalOk(times, s', u) && LockOk(s', u) {
      assert LocalOk(times, s, u) && LockOk(s, u);
    }
  }

  lemma SpuriousStep(limit: nat, times: nat, s: State, t: nat)
    requires Inv(limit, times, s) && t < limit && s.thr[t].pc.Sleep?
    ensures Inv(limit, times, s.(thr := s.thr[t := s.thr[t].(pc := Reacq)]))
  {
    var s' := s.(thr := s.thr[t := s.thr[t].(pc := Reacq)]);
    assert Arrived(s') == Arrived(s);
    forall u | 0 <= u < limit ensures LocalOk(times, s', u) && LockOk(s', u) {
      assert LocalOk(times, s, u) && LockOk(s, u);
    }
  }

  lemma StepInv(limit: nat, times: nat, s: State, l: Label, s': State)
    requires Inv(limit, times, s) && Next(times, s, l, s')
    ensures Inv(limit, times, s')
  {
    match l
    case Run(t) =>
      if s.thr[t].pc.Broadcast? { BroadcastStep(limit, times, s, t); }
      else if !s.thr[t].pc.Enter? { QuietStep(limit, times, s, t); }
      else if Completes(s.bar) { CompleteStep(limit, times, s, t); }
      else { ArriveStep(limit, times, s, t); }
    case Spurious(t) => SpuriousStep(limit, times, s, t);
  }

  lemma StartInv(limit: nat, times: nat)
    requires limit >= 1
    ensures Inv(limit, times, Start(limit))
  {
    assert Arrived(Start(limit)) == {};
  }

  lemma {:induction false} RunInv(limit: nat, times: nat, states: seq<State>, labels: seq<Label>, j: nat)
    requires limit >= 1 && IsRun(limit, times, states, labels) && j <= |labels|
    ensures Inv(limit, times, states[j])
  {
    if j == 0 {
      StartInv(limit, times);
    } else {
      RunInv(limit, times, states, labels, j - 1);
      assert Next(times, states[j - 1], labels[j - 1], states[j]);
      StepInv(limit, times, states[j - 1], labels[j - 1], states[j]);
    }
  }

  // ----- what it guarantees --------------------------------------------------------------------

  /** Nobody returns from phase p before everybody has arrived in phase p. */
  lemma NoEarlyReturn(limit: nat, times: nat, states: seq<State>, labels: seq<Label>, j: nat, t: nat, u: nat, p: nat)
    requires limit >= 1 && IsRun(limit, times, states, labels) && j <= |labels| && t < limit && u < limit
    ensures |states[j].thr| == limit
    ensures p < |states[j].thr[t].returned| ==> p < states[j].thr[u].arrived
  {
    RunInv(limit, times, states, labels, j);
    assert LocalOk(times, states[j], t) && LocalOk(times, states[j], u);
  }

  /** A thread inside the barrier sees its own phase or the next one, never a later
      one, so the comparison of wrapped counters is exact. */
  lemma PhaseNeverConfused(limit: nat, times: nat, states: seq<State>, labels: seq<Label>, j: nat, t: nat)
    requires limit >= 1 && IsRun(limit, times, states, labels) && j <= |labels| && t < limit
    requires |states[j].thr| == limit && Waiting(states[j].thr[t].pc)
    ensures var th, gen := states[j].thr[t], |states[j].serial|;
            && (gen == th.arrived - 1 || gen == th.arrived)
            && th.saved == (th.arrived - 1) % PHASES && states[j].bar.phase == gen % PHASES
            && (th.saved == states[j].bar.phase <==> gen == th.arrived - 1)
  {
    RunInv(limit, times, states, labels, j);
    assert LocalOk(times, states[j], t);
    TestIsExact(times, states[j], t);
  }

  /** With the mutex free, count is the number of threads inside that saved the
      current phase, it is below the limit, and every sleeper saved that phase. */
  lemma Accounting(limit: nat, times: nat, states: seq<State>, labels: seq<Label>, j: nat)
    requires limit >= 1 && IsRun(limit, times, states, labels) && j <= |labels|
    requires states[j].bar.owner == None
    ensures var s := states[j];
            && |s.thr| == limit && s.bar.count < s.bar.limit == limit
            && s.bar.count == |set t: nat | t < limit && Waiting(s.thr[t].pc) && s.thr[t].saved == s.bar.phase|
            && forall t | 0 <= t < limit && s.thr[t].pc.Sleep? :: s.thr[t].saved == s.bar.phase
  {
    RunInv(limit, times, states, labels, j);
    var s := states[j];
    forall t | 0 <= t < limit
      ensures t in Arrived(s) <==> Waiting(s.thr[t].pc) && s.thr[t].saved == s.bar.phase
      ensures s.thr[t].pc.Sleep? ==> s.thr[t].saved == s.bar.phase
    {
      assert LocalOk(times, s, t) && LockOk(s, t);
      if Waiting(s.thr[t].pc) { TestIsExact(times, s, t); }
    }
    assert Arrived(s) == set t: nat | t < limit && Waiting(s.thr[t].pc) && s.thr[t].saved == s.bar.phase;
  }

  /** Among those that have returned from phase p, the one that completed it and
      nobody else got PTHREAD_BARRIER_SERIAL_THREAD. */
  lemma OneSerialThread(limit: nat, times: nat, states: seq<State>, labels: seq<Label>, j: nat, p: nat)
    requires limit >= 1 && IsRun(limit, times, states, labels) && j <= |labels|
    requires |states[j].thr| == limit && forall t | 0 <= t < limit :: p < |states[j].thr[t].returned|
    ensures exists t: nat ::
              t < limit && states[j].thr[t].returned[p] &&
              forall u: nat | u < limit && u != t :: !states[j].thr[u].returned[p]
  {
    RunInv(limit, times, states, labels, j);
    var s := states[j];
    assert LocalOk(times, s, 0);
    var t := s.serial[p];
    forall u: nat | u < limit
      ensures s.thr[u].returned[p] <==> u == t
    {
      assert LocalOk(times, s, u);
    }
    assert t < limit && s.thr[t].returned[p];
  }

  // ----- progress ----------------------------------------------------------------------------------

  predicate AllReturned(times: nat, s: State) {
    forall t | 0 <= t < |s.thr| :: |s.thr[t].returned| == times
  }

  predicate CanStep(times: nat, s: State) {
    exists t | 0 <= t < |s.thr| :: Enabled(times, s, t)
  }

  lemma HolderRuns(limit: nat, times: nat, s: State)
    requires Inv(limit, times, s) && s.bar.owner.Some?
    ensures CanStep(times, s)
  {
    assert Enabled(times, s, s.bar.owner.value);
  }

  lemma AwakeRuns(limit: nat, times: nat, s: State, t: nat)
    requires Inv(limit, times, s) && t < limit && !s.thr[t].pc.Sleep? && |s.thr[t].returned| < times
    ensures CanStep(times, s)
  {
    if s.bar.owner.Some? { HolderRuns(limit, times, s); } else { assert Enabled(times, s, t); }
  }

  /** If somebody sleeps in the current phase, somebody has yet to arrive in it and
      has a call left to make. */
  lemma SleeperFreed(limit: nat, times: nat, s: State, t: nat)
    requires Inv(limit, times, s) && t < limit && s.thr[t].pc.Sleep?
    ensures CanStep(times, s)
  {
    assert LocalOk(times, s, t) && LockOk(s, t);
    if s.thr[t].arrived == |s.serial| {
      HolderRuns(limit, times, s);
    } else {
      if Below(limit) <= Arrived(s) {
        SubsetSize(Below(limit), Arrived(s));
        assert false;
      }
      var u :| u in Below(limit) && u !in Arrived(s);
      assert LocalOk(times, s, u) && LockOk(s, u);
      if s.thr[u].pc.Sleep? {
        HolderRuns(limit, times, s);
      } else {
        AwakeRuns(limit, times, s, u);
      }
    }
  }

  lemma NoDeadlock(limit: nat, times: nat, s: State)
    requires Inv(limit, times, s) && !AllReturned(times, s)
    ensures CanStep(times, s)
  {
    var t :| 0 <= t < limit && |s.thr[t].returned| != times;
    assert LocalOk(times, s, t);
    if s.thr[t].pc.Sleep? { SleeperFreed(limit, times, s, t); } else { AwakeRuns(limit, times, s, t); }
  }

  function CallsCost(k: nat, cost: nat): nat {
    if k == 0 then 0 else cost + CallsCost(k - 1, cost)
  }

  function Position(n: nat, pc: PC): nat {
    match pc
    case Idle => 0
    case Lock => 2 * n + 6
    case Enter => 2 * n + 5
    case Broadcast => 2 * n + 4
    case SerialUnlock => 2
    case Reacq => 4
    case Test => 3
    case Sleep => 2
    case Unlock => 1
  }

  function Item(n: nat, times: nat, th: Thread): nat {
    var k := if |th.returned| <= times then times - |th.returned| else 0;
    if th.pc.Idle? || k == 0 then CallsCost(k, 2 * n + 7)
    else CallsCost(k - 1, 2 * n + 7) + Position(n, th.pc)
  }

  function Items(times: nat, s: State): (xs: seq<nat>)
    ensures |xs| == |s.thr|
    ensures forall t | 0 <= t < |s.thr| :: xs[t] == Item(|s.thr|, times, s.thr[t])
  {
    seq(|s.thr|, t requires 0 <= t < |s.thr| => Item(|s.thr|, times, s.thr[t]))
  }

  function Rank(times: nat, s: State): nat {
    Sum(Items(times, s))
  }

  lemma ItemFalls(n: nat, times: nat, th: Thread, bar: Barrier)
    requires !th.pc.Sleep? && |th.returned| < times
    ensures Item(n, times, ThreadStep(th, bar)) + (if th.pc.Broadcast? then 2 * n + 2 else 1) <= Item(n, times, th)
  {
  }

  lemma StepRank(limit: nat, times: nat, s: State, l: Label, s': State)
    requires Inv(limit, times, s) && Next(times, s, l, s')
    ensures l.Run? ==> Rank(times, s') < Rank(times, s)
    ensures l.Spurious? ==> Rank(times, s') <= Rank(times, s) + 2
  {
    var xs, ys := Items(times, s), Items(times, s');
    assert LocalOk(times, s, l.t);
    match l
    case Run(t) =>
      ItemFalls(limit, times, s.thr[t], s.bar);
      if s.thr[t].pc.Broadcast? { SumPays(xs, ys, t); } else { SumOne(xs, ys, t); }
    case Spurious(t) => SumFalls(xs, ys, -1, t);
  }

  function SpuriousCount(labels: seq<Label>): nat {
    if |labels| == 0 then 0
    else SpuriousCount(labels[..|labels| - 1]) + (if labels[|labels| - 1].Spurious? then 1 else 0)
  }

  lemma {:induction false} RunRank(limit: nat, times: nat, states: seq<State>, labels: seq<Label>, j: nat)
    requires limit >= 1 && IsRun(limit, times, states, labels) && j <= |labels|
    ensures j + Rank(times, states[j]) <= Rank(times, Start(limit)) + 3 * SpuriousCount(labels[..j])
  {
    if j > 0 {
      RunRank(limit, times, states, labels, j - 1);
      RunInv(limit, times, states, labels, j - 1);
      assert Next(times, states[j - 1], labels[j - 1], states[j]);
      StepRank(limit, times, states[j - 1], labels[j - 1], states[j]);
      assert labels[..j][..j - 1] == labels[..j - 1];
    }
  }

  /** Every run is finite up to spurious wakeups, and one that cannot go on without
      them has let every thread through `times` phases. */
  lemma EveryPhaseCompletes(limit: nat, times: nat, states: seq<State>, labels: seq<Label>)
    requires limit >= 1 && IsRun(limit, times, states, labels)
    ensures |labels| <= Rank(times, Start(limit)) + 3 * SpuriousCount(labels)
    ensures CanStep(times, states[|labels|]) || (AllReturned(times, states[|labels|]) && |states[|labels|].serial| == times)
  {
    RunRank(limit, times, states, labels, |labels|);
    assert labels[..|labels|] == labels;
    RunInv(limit, times, states, labels, |labels|);
    var s := states[|labels|];
    if !CanStep(times, s) {
      if !AllReturned(times, s) { NoDeadlock(limit, times, s); }
      assert LocalOk(times, s, 0);
      assert |s.thr[0].returned| == times;
    }
  }
}
