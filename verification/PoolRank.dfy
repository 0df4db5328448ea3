/** A ranking function: every step except a spurious wakeup lowers it, and a
    spurious wakeup raises it by two. */
module PoolRank {
  import opened Sync
  import opened Sums
  import opened Pool
  import opened PoolInvariant
  import opened PoolFrames
  import opened PoolWorker
  import opened PoolController
  import opened PoolRounds
  import opened PoolQueue
  import opened PoolSafety

  // ----- the rank of a thread, a mailbox and the controller --------------------------------

  function Reps(c: Config, r: nat): nat {
    if r < |c.rounds| then c.rounds[r].reps else 0
  }

  function JobCost(n: nat, reps: nat): nat {
    16 + 2 * reps + 2 * n
  }

  function Left(reps: nat, rep: nat): nat {
    if rep <= reps then reps - rep else 0
  }

  /** Steps a worker has left in its current job and run loop. */
  function WorkerRank(n: nat, reps: nat, th: Thread): nat {
    var x := 11 + 2 * reps;
    match th.pc
    case WTest => 1
    case WReacq => 2
    case WLock => 2
    case WLoop => 3
    case WStartUnlock => 4
    case WStartLock => 5
    case WStart => 6
    case RUnlock => 4
    case RSignal => 7
    case RSet => 8
    case RLock => 9
    case WCall => 9 + 2 * Left(reps, th.rep)
    case WRep => 10 + 2 * Left(reps, th.rep)
    case BUnlock => x
    case BSerialUnlock => x
    case BSleep => x + 1
    case BTest => x + 2
    case BReacq => x + 3
    case BBroadcast => x + 2 * n + 1
    case BEnter => x + 2 * n + 2
    case BLock => x + 2 * n + 3
    case WInit => x + 2 * n + 4
    case WUnlock => x + 2 * n + 5
    case _ => 0
  }

  /** A queued job still has all its steps to come. */
  function BoxRank(n: nat, reps: nat, b: Mailbox): nat {
    if b.s == QUEUED then JobCost(n, reps) else 0
  }

  /** From CCLock at slot k to the end of the round. */
  function CollectCost(m: nat, k: nat): nat {
    if k >= m then 3 else 3 + 5 * (m - k)
  }

  /** From CFill at slot k to the end of the round. */
  function QueueCost(m: nat, k: nat, job: nat): nat
    decreases if k >= m then 0 else m - k
  {
    if k >= m then CollectCost(m, 0) + 8 else QueueCost(m, k + 1, job) + 8 + job
  }

  function RoundJob(c: Config, r: nat): nat {
    JobCost(c.n, Reps(c, r))
  }

  /** From the start of round r to the end of the program. */
  function RestCost(c: Config, r: nat): nat
    decreases if r >= |c.rounds| then 0 else |c.rounds| - r
  {
    if r >= |c.rounds| then 0
    else QueueCost(|Group(c, r)|, 0, RoundJob(c, r)) + 1 + RestCost(c, r + 1)
  }

  /** What the controller still has to do in a round with m slots. */
  function RoundRank(m: nat, job: nat, th: Thread): nat {
    match th.pc
    case CFill => QueueCost(m, th.k, job)
    case CQLock => QueueCost(m, th.k + 1, job) + 7 + job
    case CQSet => QueueCost(m, th.k + 1, job) + 6 + job
    case CQSignal => QueueCost(m, th.k + 1, job) + 4
    case CQUnlock => QueueCost(m, th.k + 1, job) + 1
    case CCLock => CollectCost(m, th.k)
    case CCReacq => CollectCost(m, th.k + 1) + 3
    case CCTest => CollectCost(m, th.k + 1) + 2
    case CCSleep => CollectCost(m, th.k + 1) + 1
    case CCUnlock => CollectCost(m, th.k + 1) + 1
    case CJoin => 2
    case CFree => 1
    case _ => CollectCost(m, 0) + 1
  }

  function ControllerRank(c: Config, r: nat, th: Thread): nat {
    if th.pc.CDone? then 0
    else if th.pc.CInit? then RestCost(c, r)
    else RestCost(c, r + 1) + RoundRank(|Group(c, r)|, RoundJob(c, r), th)
  }

  function Item(c: Config, r: nat, t: nat, th: Thread, b: Mailbox): nat {
    WorkerRank(c.n, Reps(c, r), th) + BoxRank(c.n, Reps(c, r), b) + (if t == 0 then ControllerRank(c, r, th) else 0)
  }

  function Items(c: Config, s: State): (xs: seq<nat>)
    requires Sizes(c, s)
    ensures |xs| == c.n
    ensures forall t | 0 <= t < c.n :: xs[t] == Item(c, s.round, t, s.thr[t], s.box[t])
  {
    seq(c.n, t requires 0 <= t < c.n => Item(c, s.round, t, s.thr[t], s.box[t]))
  }

  function Rank(c: Config, s: State): nat
    requires Sizes(c, s)
  {
    if s.failed then 0 else 1 + Sum(Items(c, s))
  }

  // ----- worker steps -----------------------------------------------------------------------

  predicate OnlyThread(c: Config, s: State, s': State, t: nat) {
    && Sizes(c, s) && Sizes(c, s') && t < c.n && s'.round == s.round
    && (forall u | 0 <= u < c.n && u != t :: s'.thr[u] == s.thr[u] && s'.box[u].s == s.box[u].s)
  }

  lemma OnlyFalls(c: Config, s: State, s': State, t: nat)
    requires OnlyThread(c, s, s', t)
    requires Item(c, s.round, t, s'.thr[t], s'.box[t]) < Item(c, s.round, t, s.thr[t], s.box[t])
    ensures Sum(Items(c, s')) < Sum(Items(c, s))
  {
    SumOne(Items(c, s), Items(c, s'), t);
  }

  lemma WaitFalls(c: Config, s: State, t: nat)
    requires Sizes(c, s) && t < c.n && !s.failed
    requires PrePc(s.thr[t].pc) || s.thr[t].pc.WUnlock?
    requires !s.thr[t].pc.WSleep? && !(s.thr[t].pc.WLock? && s.box[t].s == WORKING)
    ensures Rank(c, WaitStep(s, t)) < Rank(c, s)
  {
    OnlyFalls(c, s, WaitStep(s, t), t);
  }

  lemma BarrierFalls(c: Config, s: State, t: nat)
    requires Sizes(c, s) && t < c.n && !s.failed
    requires BarrierPc(s.thr[t].pc)
    ensures Rank(c, BarrierStep(s, t)) < Rank(c, s)
  {
    BarrierItemFalls(c, s.round, t, s.thr[t], s.bar);
    OnlyFalls(c, s, BarrierStep(s, t), t);
  }

  predicate BarrierPc(pc: PC) {
    QuietBarrierPc(pc) || pc.BEnter?
  }

  lemma BarrierItemFalls(c: Config, r: nat, t: nat, th: Thread, bar: Barrier)
    requires BarrierPc(th.pc)
    ensures WorkerRank(c.n, Reps(c, r), BarrierThread(th, bar)) < WorkerRank(c.n, Reps(c, r), th)
    ensures ControllerRank(c, r, BarrierThread(th, bar)) == ControllerRank(c, r, th)
  {
  }

  /** Waking costs two; the broadcast itself has paid for n of them. */
  lemma BroadcastItem(c: Config, r: nat, u: nat, th: Thread, b: Mailbox)
    ensures th.pc.BSleep? ==> Item(c, r, u, th.(pc := BReacq), b) == Item(c, r, u, th, b) + 2
    ensures th.pc.BBroadcast? ==> Item(c, r, u, th.(pc := BSerialUnlock), b) + 2 * c.n + 1 == Item(c, r, u, th, b)
  {
  }

  lemma BroadcastFalls(c: Config, s: State, t: nat)
    requires Sizes(c, s) && t < c.n && !s.failed && s.thr[t].pc.BBroadcast?
    ensures Rank(c, BarrierStep(s, t)) < Rank(c, s)
  {
    var s' := BarrierStep(s, t);
    var xs, ys := Items(c, s), Items(c, s');
    BroadcastShape(c, s, t);
    BroadcastItem(c, s.round, t, s.thr[t], s.box[t]);
    forall u | 0 <= u < c.n && u != t
      ensures ys[u] <= xs[u] + 2
    {
      BroadcastItem(c, s.round, u, s.thr[u], s.box[u]);
    }
    SumPays(xs, ys, t);
  }

  lemma BroadcastShape(c: Config, s: State, t: nat)
    requires Sizes(c, s) && t < c.n && s.thr[t].pc.BBroadcast?
    ensures var s' := BarrierStep(s, t);
            && Sizes(c, s') && s'.box == s.box && s'.round == s.round && s'.failed == s.failed
            && s'.thr[t] == s.thr[t].(pc := BSerialUnlock)
            && forall u | 0 <= u < c.n && u != t :: s'.thr[u] == s.thr[u] || (s.thr[u].pc.BSleep? && s'.thr[u] == s.thr[u].(pc := BReacq))
  {
  }

  lemma JobItemFalls(c: Config, r: nat, t: nat, th: Thread, b: Mailbox, b': Mailbox)
    requires QuietJobPc(t, th.pc)
    requires th.pc.WCall? ==> th.rep < Reps(c, r)
    requires b' == b.(run := false) || b' == JobBox(t, th, b)
    ensures Item(c, r, t, JobThread(th, Reps(c, r)), b') < Item(c, r, t, th, b)
  {
  }

  lemma JobFalls(c: Config, s: State, t: nat, w: nat, b': Mailbox)
    requires Sizes(c, s) && t < c.n && !s.failed && QuietJobPc(t, s.thr[t].pc)
    requires s.thr[t].pc.WRep? ==> JobRead(s, s.thr[t]).reps == Reps(c, s.round)
    requires s.thr[t].pc.WCall? ==> s.thr[t].rep < Reps(c, s.round)
    requires var job := JobRead(s, s.thr[t]);
             && b' == (if s.thr[t].pc.WCall? && job.stop.Some? then s.box[t].(run := false) else JobBox(t, s.thr[t], s.box[t]))
             && (s.thr[t].pc.WCall? && job.stop.Some? ==> job.stop.value == t)
             && (s.thr[t].pc.RSet? ==> CanReturn(s.box[t]))
    ensures Rank(c, JobStep(c, s, t, w)) < Rank(c, s)
  {
    JobIsQuiet(c, s, t, w, b');
    JobItemFalls(c, s.round, t, s.thr[t], s.box[t], b');
    assert JobThread(s.thr[t], JobRead(s, s.thr[t]).reps) == JobThread(s.thr[t], Reps(c, s.round));
    OnlyFalls(c, s, JobStep(c, s, t, w), t);
  }

  /** A signal costs its sender three and gives the sleeper two. */
  lemma SignalFalls(c: Config, s: State, t: nat, w: nat)
    requires Sizes(c, s) && t < c.n && !s.failed && s.thr[t].pc.RSignal?
    ensures Rank(c, JobStep(c, s, t, w)) < Rank(c, s)
  {
    var s1 := Goto(s, t, RUnlock);
    assert JobStep(c, s, t, w) == Signal(c, s1, t, w);
    SignalRises(c, s, s1, t, w);
  }

  /** Signalling mailbox t after dropping three in thread t's rank. */
  lemma SignalRises(c: Config, s: State, s1: State, t: nat, w: nat)
    requires OnlyThread(c, s, s1, t) && !s1.thr[t].pc.WSleep? && !s1.thr[t].pc.CCSleep?
    requires Item(c, s.round, t, s1.thr[t], s1.box[t]) + 3 <= Item(c, s.round, t, s.thr[t], s.box[t])
    ensures Sum(Items(c, Signal(c, s1, t, w))) < Sum(Items(c, s))
  {
    var s' := Signal(c, s1, t, w);
    if AsleepOn(c, s1, w, t) {
      SumFalls(Items(c, s), Items(c, s'), t, w);
    } else {
      SumOne(Items(c, s), Items(c, s'), t);
    }
  }

  lemma LeaveFalls(c: Config, s: State, w: nat)
    requires Sizes(c, s) && !s.failed && s.thr[0].pc.RUnlock?
    ensures Rank(c, JobStep(c, s, 0, w)) < Rank(c, s)
  {
    OnlyFalls(c, s, JobStep(c, s, 0, w), 0);
  }

  // ----- controller steps ------------------------------------------------------------------------

  lemma QueueItemFalls(c: Config, r: nat, th: Thread, b: Mailbox)
    requires th.k < |Group(c, r)|
    requires th.pc.CFill? || th.pc.CQLock? || th.pc.CQUnlock?
    ensures var th' := CtlThread(c, r, th, b);
            WorkerRank(c.n, Reps(c, r), th') + ControllerRank(c, r, th') < ControllerRank(c, r, th)
  {
  }

  lemma CollectItemFalls(c: Config, r: nat, th: Thread, b: Mailbox)
    requires th.k < |Group(c, r)|
    requires th.pc.CCLock? || th.pc.CCReacq? || th.pc.CCTest? || th.pc.CCUnlock? || th.pc.CJoin?
    ensures var th' := CtlThread(c, r, th, b);
            WorkerRank(c.n, Reps(c, r), th') + ControllerRank(c, r, th') < ControllerRank(c, r, th)
  {
  }

  lemma CtlFalls(c: Config, s: State, w: nat)
    requires InRound(c, s) && !s.failed
    requires s.thr[0].pc.CFill? || s.thr[0].pc.CJoin? || QuietCtlPc(s.thr[0].pc, s.box[Target(c, s)]) ||
             (s.thr[0].pc.CCTest? && s.box[Target(c, s)].s == DONE)
    ensures Rank(c, ControllerStep(c, s, w)) < Rank(c, s)
  {
    if s.thr[0].pc.CFill? || s.thr[0].pc.CQLock? || s.thr[0].pc.CQUnlock? {
      QueueItemFalls(c, s.round, s.thr[0], s.box[Target(c, s)]);
    } else {
      CollectItemFalls(c, s.round, s.thr[0], s.box[Target(c, s)]);
    }
    CtlShape(c, s, w);
    SumOne(Items(c, s), Items(c, ControllerStep(c, s, w)), 0);
  }

  lemma CtlShape(c: Config, s: State, w: nat)
    requires InRound(c, s)
    requires s.thr[0].pc.CFill? || s.thr[0].pc.CJoin? || QuietCtlPc(s.thr[0].pc, s.box[Target(c, s)]) ||
             (s.thr[0].pc.CCTest? && s.box[Target(c, s)].s == DONE)
    ensures var s' := ControllerStep(c, s, w);
            && Sizes(c, s') && s'.round == s.round && s'.failed == s.failed
            && s'.thr == s.thr[0 := NextThread(c, s)]
            && forall u | 0 <= u < c.n :: s'.box[u].s == QUEUED ==> s.box[u].s == QUEUED
  {
  }

  /** Queueing moves the job's cost from the controller to the mailbox. */
  lemma PutFalls(c: Config, s: State, w: nat)
    requires InRound(c, s) && !s.failed && s.thr[0].pc.CQSet?
    ensures Rank(c, ControllerStep(c, s, w)) < Rank(c, s)
  {
    var s' := ControllerStep(c, s, w);
    if CanPut(s.box[Target(c, s)]) {
      var i := Target(c, s);
      var mid := s.(thr := s'.thr);
      OnlyFallsBy(c, s, mid, RoundJob(c, s.round) + 2);
      SumOne(Items(c, mid), Items(c, s'), i);
    }
  }

  lemma OnlyFallsBy(c: Config, s: State, s': State, d: nat)
    requires OnlyThread(c, s, s', 0)
    requires Item(c, s.round, 0, s'.thr[0], s'.box[0]) + d <= Item(c, s.round, 0, s.thr[0], s.box[0])
    ensures Sum(Items(c, s')) + d <= Sum(Items(c, s))
  {
    SumOne(Items(c, s), Items(c, s'), 0);
  }

  lemma NotifyFalls(c: Config, s: State, w: nat)
    requires InRound(c, s) && !s.failed && s.thr[0].pc.CQSignal?
    ensures Rank(c, ControllerStep(c, s, w)) < Rank(c, s)
  {
    NotifyItems(c, s, w);
    var x := if AsleepOn(c, s, w, Target(c, s)) then w else c.n;
    SumFalls(Items(c, s), Items(c, ControllerStep(c, s, w)), 0, x);
  }

  lemma QueueSignalShape(c: Config, s: State, w: nat)
    requires InRound(c, s) && s.thr[0].pc.CQSignal?
    ensures var s' := ControllerStep(c, s, w);
            && Sizes(c, s') && s'.round == s.round && s'.thr[0] == NextThread(c, s)
            && (forall u | 0 < u < c.n && !(u == w && AsleepOn(c, s, w, Target(c, s))) :: s'.thr[u] == s.thr[u])
            && (AsleepOn(c, s, w, Target(c, s)) ==> w > 0 && s'.thr[w] == s.thr[w].(pc := WReacq) && s.thr[w].pc.WSleep?)
            && s'.box == s.box
  {
  }

  /** The signal costs the controller less than the sleeper it wakes gains. */
  lemma NotifyItems(c: Config, s: State, w: nat)
    requires InRound(c, s) && s.thr[0].pc.CQSignal?
    ensures Sizes(c, ControllerStep(c, s, w))
    ensures var xs, ys := Items(c, s), Items(c, ControllerStep(c, s, w));
            && ys[0] + 3 <= xs[0]
            && (AsleepOn(c, s, w, Target(c, s)) ==> 0 < w < c.n && ys[w] <= xs[w] + 2)
            && forall u | 0 < u < c.n && !(u == w && AsleepOn(c, s, w, Target(c, s))) :: ys[u] == xs[u]
  {
    QueueSignalShape(c, s, w);
  }

  lemma InitFalls(c: Config, s: State)
    requires Sizes(c, s) && !s.failed && s.thr[0].pc.CInit? && s.round < |c.rounds|
    ensures Rank(c, InitStep(c, s)) < Rank(c, s)
  {
    OnlyFalls(c, s, InitStep(c, s), 0);
  }

  /** Nobody's rank depends on the round once its jobs are collected. */
  lemma FreeFalls(c: Config, s: State)
    requires Sizes(c, s) && !s.failed && s.thr[0].pc.CFree? && s.round < |c.rounds|
    requires forall t | 0 <= t < c.n :: !WorkPc(s.thr[t].pc) && s.box[t].s != QUEUED
    ensures Rank(c, FreeStep(c, s)) < Rank(c, s)
  {
    FreeItems(c, s);
    SumOne(Items(c, s), Items(c, FreeStep(c, s)), 0);
  }

  lemma FreeShape(c: Config, s: State)
    requires Sizes(c, s) && s.thr[0].pc.CFree? && s.round < |c.rounds|
    ensures var s' := FreeStep(c, s);
            && s'.round == s.round + 1 && |s'.thr| == c.n && s'.box == s.box
            && s'.thr[0].pc == (if s.round + 1 == |c.rounds| then CDone else CInit)
            && forall u | 0 < u < c.n :: s'.thr[u] == s.thr[u]
  {
  }

  lemma FreeItems(c: Config, s: State)
    requires Sizes(c, s) && s.thr[0].pc.CFree? && s.round < |c.rounds|
    requires forall t | 0 <= t < c.n :: !WorkPc(s.thr[t].pc) && s.box[t].s != QUEUED
    ensures Sizes(c, FreeStep(c, s))
    ensures var xs, ys := Items(c, s), Items(c, FreeStep(c, s));
            ys[0] < xs[0] && forall u | 0 < u < c.n :: ys[u] <= xs[u]
  {
    FreeShape(c, s);
    var s' := FreeStep(c, s);
    forall u | 0 < u < c.n
      ensures Items(c, s')[u] <= Items(c, s)[u]
    {
      RestingItem(c, s.round, s.round + 1, u, s.thr[u], s.box[u]);
    }
    FreeItem(c, s.round, s.thr[0], s'.thr[0], s.box[0]);
  }

  lemma RestingItem(c: Config, r: nat, r': nat, u: nat, th: Thread, b: Mailbox)
    requires u > 0 && !WorkPc(th.pc) && b.s != QUEUED
    ensures Item(c, r', u, th, b) == Item(c, r, u, th, b)
  {
  }

  lemma FreeItem(c: Config, r: nat, th: Thread, th': Thread, b: Mailbox)
    requires r < |c.rounds| && th.pc.CFree? && b.s != QUEUED
    requires th'.pc == if r + 1 == |c.rounds| then CDone else CInit
    ensures Item(c, r + 1, 0, th', b) < Item(c, r, 0, th, b)
  {
  }

  /** A spurious wakeup raises the rank by at most two. */
  lemma SpuriousRises(c: Config, s: State, t: nat)
    requires Sizes(c, s) && t < c.n && Asleep(s.thr[t].pc)
    ensures Rank(c, Goto(s, t, Woken(s.thr[t].pc))) <= Rank(c, s) + 2
  {
    SumFalls(Items(c, s), Items(c, Goto(s, t, Woken(s.thr[t].pc))), -1, t);
  }
}
