/** The worker pool as a state machine.

    Thread 0 is the main thread: it is the controller and, inside a round that
    includes it, also worker 0 (the "dirigent").  Threads 1.. are the pthreads
    running `worker`.  Every pthread call is a step of its own; the straight-line
    code before the next call belongs to the step that makes the test or the
    update.  A condition wait releases the mutex and falls asleep in one step, and
    a sleeper may wake at any time (a spurious wakeup). */
module Pool {
  import opened Sync

  datatype PC =
    // controller (thread 0)
    | CInit | CFill | CQLock | CQSet | CQSignal | CQUnlock
    | CCLock | CCTest | CCSleep | CCReacq | CCUnlock
    | CJoin | CFree | CDone
    // worker: start-up and wait_for_work
    | WStart | WStartLock | WStartUnlock | WLoop
    | WLock | WTest | WSleep | WReacq | WUnlock
    // worker: the job, up to and through the barrier
    | WInit | BLock | BEnter | BBroadcast | BSerialUnlock
    | BSleep | BReacq | BTest | BUnlock
    // worker: repetitions and return_finished_work
    | WRep | WCall | RLock | RSet | RSignal | RUnlock | WExit

  /** What a slot of `step->work` holds: the repetition count and, for the stop
      job, the thread whose `run` flag its `call` clears. */
  datatype Job = Job(reps: nat, stop: Option<nat>)

  /** One batch of jobs that share the step's barrier.
      `group[k]` is the thread that gets slot k.
      `pair`  : slot 0 is not collected (run_two_benchmarks collects from 1).
      `stop`  : the stop job; the controller joins the thread afterwards.
      `free`  : free_step runs at the end of the round. */
  datatype Round = Round(group: seq<nat>, reps: nat, pair: bool, stop: bool, free: bool)

  /** n threads and the rounds the controller performs, in order. */
  datatype Config = Config(n: nat, rounds: seq<Round>)

  /** A thread's program counter and locals: k is the controller's loop index,
      held the local `work` pointer, saved the phase kept by the barrier wait.
      `calls` counts the executions of a job's `call`. */
  datatype Thread = Thread(pc: PC, k: nat, held: nat, rep: nat, saved: nat, calls: nat)

  datatype State = State(
    thr: seq<Thread>, box: seq<Mailbox>, bar: Barrier, slots: seq<Option<Job>>,
    alive: bool, round: nat, joined: seq<nat>, failed: bool)

  // ----- program-counter classes ---------------------------------------------

  predicate CtlPc(pc: PC) {
    QueueingPc(pc) || CollectingPc(pc) || pc.CInit? || pc.CJoin? || pc.CFree? || pc.CDone?
  }

  predicate QueueingPc(pc: PC) {
    pc.CFill? || pc.CQLock? || pc.CQSet? || pc.CQSignal? || pc.CQUnlock?
  }

  predicate CollectingPc(pc: PC) {
    pc.CCLock? || pc.CCTest? || pc.CCSleep? || pc.CCReacq? || pc.CCUnlock?
  }

  /** At start-up, in the run loop or waiting for work. */
  predicate PrePc(pc: PC) {
    pc.WStart? || pc.WStartLock? || pc.WStartUnlock? || pc.WLoop? ||
    pc.WLock? || pc.WTest? || pc.WSleep? || pc.WReacq?
  }

  predicate BeforeBarrierPc(pc: PC) {
    pc.WUnlock? || pc.WInit? || pc.BLock? || pc.BEnter?
  }

  predicate WaitingPc(pc: PC) {
    pc.BSleep? || pc.BReacq? || pc.BTest?
  }

  predicate PassedPc(pc: PC) {
    pc.BBroadcast? || pc.BSerialUnlock? || pc.BUnlock? || pc.WRep? || pc.WCall? || pc.RLock? || pc.RSet?
  }

  /** Holding a work pointer: the thread may dereference the shared step. */
  predicate WorkPc(pc: PC) {
    BeforeBarrierPc(pc) || WaitingPc(pc) || PassedPc(pc)
  }

  predicate ReturnedPc(pc: PC) {
    pc.RSignal? || pc.RUnlock?
  }

  predicate Asleep(pc: PC) {
    pc.CCSleep? || pc.WSleep? || pc.BSleep?
  }

  function Woken(pc: PC): PC {
    match pc
    case CCSleep => CCReacq
    case WSleep => WReacq
    case BSleep => BReacq
    case _ => pc
  }

  // ----- configurations ------------------------------------------------------

  function Group(c: Config, r: nat): seq<nat> {
    if r < |c.rounds| then c.rounds[r].group else []
  }

  /** init_step runs at the start of the round. */
  predicate Fresh(c: Config, r: nat) {
    r == 0 || (r <= |c.rounds| && c.rounds[r - 1].free)
  }

  /** The first slot the controller collects. */
  function FirstCollected(c: Config, r: nat): nat {
    if r < |c.rounds| && c.rounds[r].pair then 1 else 0
  }

  function JobOf(r: Round, k: nat): Job
    requires k < |r.group|
  {
    Job(r.reps, if r.stop then Some(r.group[k]) else None)
  }

  // ----- steps -----------------------------------------------------------------

  function SetThr(s: State, t: nat, th: Thread): State
    requires t < |s.thr|
  {
    s.(thr := s.thr[t := th])
  }

  function Goto(s: State, t: nat, pc: PC): State
    requires t < |s.thr|
  {
    SetThr(s, t, s.thr[t].(pc := pc))
  }

  function SetBox(s: State, i: nat, b: Mailbox): State
    requires i < |s.box|
  {
    s.(box := s.box[i := b])
  }

  /** u sleeps on the condition variable of mailbox i. */
  predicate AsleepOn(c: Config, s: State, u: nat, i: nat) {
    u < |s.thr| &&
    ((u == i && s.thr[u].pc.WSleep?) ||
     (u == 0 && s.thr[0].pc.CCSleep? && s.thr[0].k < |Group(c, s.round)| && Group(c, s.round)[s.thr[0].k] == i))
  }

  /** pthread_cond_signal on mailbox i, when the scheduler picks w. */
  function Signal(c: Config, s: State, i: nat, w: nat): State {
    if AsleepOn(c, s, w, i) then Goto(s, w, Woken(s.thr[w].pc)) else s
  }

  /** pthread_cond_broadcast on the barrier's condition variable. */
  function WakeAll(thr: seq<Thread>): (r: seq<Thread>)
    ensures |r| == |thr|
    ensures forall u | 0 <= u < |thr| ::
              r[u] == (if thr[u].pc.BSleep? then thr[u].(pc := BReacq) else thr[u])
  {
    seq(|thr|, u requires 0 <= u < |thr| => if thr[u].pc.BSleep? then thr[u].(pc := BReacq) else thr[u])
  }

  /** The state has room for the thread, the round and the slot it works on. */
  predicate Shaped(c: Config, s: State) {
    && |s.thr| == c.n && |s.box| == c.n && c.n >= 1
    && (forall r | 0 <= r < |c.rounds| :: |c.rounds[r].group| >= 1 && forall k | 0 <= k < |c.rounds[r].group| :: c.rounds[r].group[k] < c.n)
    && (if s.thr[0].pc.CDone? then s.round == |c.rounds| else s.round < |c.rounds|)
    && (CtlPc(s.thr[0].pc) && !s.thr[0].pc.CDone? ==> s.thr[0].k < |Group(c, s.round)|)
    && (s.thr[0].pc.CFill? ==> s.thr[0].k < |s.slots|)
    && (forall t | 0 < t < c.n :: !CtlPc(s.thr[t].pc))
    && (forall t | 0 <= t < c.n :: (s.thr[t].pc.WRep? || s.thr[t].pc.WCall?) ==>
         s.thr[t].held < |s.slots| && s.slots[s.thr[t].held].Some? &&
         (s.slots[s.thr[t].held].value.stop.Some? ==> s.slots[s.thr[t].held].value.stop.value < c.n))
  }

  /** The mailbox whose mutex thread t is about to lock, if it is about to. */
  function LockTarget(c: Config, s: State, t: nat): Option<nat>
    requires Shaped(c, s) && t < c.n
  {
    var pc := s.thr[t].pc;
    if pc.CQLock? || pc.CCLock? || pc.CCReacq? then Some(Group(c, s.round)[s.thr[0].k])
    else if pc.WStartLock? || pc.WLock? || pc.WReacq? || pc.RLock? then Some(t)
    else None
  }

  predicate Enabled(c: Config, s: State, t: nat)
    requires Shaped(c, s)
  {
    && t < c.n && !s.failed
    && var pc := s.thr[t].pc;
       && !Asleep(pc) && !pc.WExit? && !pc.CDone?
       && (LockTarget(c, s, t).Some? ==> s.box[LockTarget(c, s, t).value].owner == None)
       && (pc.BLock? || pc.BReacq? ==> s.bar.owner == None)
       && (pc.CJoin? && c.rounds[s.round].stop ==> s.thr[Group(c, s.round)[0]].pc.WExit?)
  }

  /** Where the controller goes when it is about to collect slot k. */
  function CollectAt(g: seq<nat>, th: Thread, k: nat): Thread {
    if k < |g| then th.(pc := CCLock, k := k) else th.(pc := CJoin, k := 0)
  }

  function CollectFrom(c: Config, s: State, k: nat): State
    requires |s.thr| > 0
  {
    SetThr(s, 0, CollectAt(Group(c, s.round), s.thr[0], k))
  }

  /** The controller can see its round and its slot. */
  predicate CtlShaped(c: Config, s: State) {
    && |s.thr| > 0 && CtlPc(s.thr[0].pc)
    && (!s.thr[0].pc.CDone? ==>
          && s.round < |c.rounds| && |Group(c, s.round)| > 0
          && s.thr[0].k < |Group(c, s.round)| && Group(c, s.round)[s.thr[0].k] < |s.box|)
    && (s.thr[0].pc.CFill? ==> s.thr[0].k < |s.slots|)
  }

  /** init_step, or the reuse of the step by the next round. */
  function InitStep(c: Config, s: State): State
    requires |s.thr| > 0
  {
    var s1 := if Fresh(c, s.round) then
                s.(bar := Barrier(None, |Group(c, s.round)|, 0, 0),
                   slots := seq(|Group(c, s.round)|, _ => None), alive := true)
              else s;
    SetThr(s1, 0, s1.thr[0].(pc := CFill, k := 0))
  }

  /** free_step, if it is due, and the end of the round. */
  function FreeStep(c: Config, s: State): State
    requires |s.thr| > 0 && s.round < |c.rounds|
  {
    var s1 := if c.rounds[s.round].free then s.(alive := false, slots := [], round := s.round + 1)
              else s.(round := s.round + 1);
    SetThr(s1, 0, s1.thr[0].(pc := if s.round + 1 == |c.rounds| then CDone else CInit, k := 0))
  }

  /** queue_work and wait_until_done: the controller's own part. */
  function CtlThread(c: Config, r: nat, th: Thread, b: Mailbox): Thread {
    var g := Group(c, r);
    match th.pc
    case CFill => th.(pc := CQLock)
    case CQLock => th.(pc := CQSet)
    case CQSet => th.(pc := CQSignal)
    case CQSignal => th.(pc := CQUnlock)
    case CQUnlock =>
      if th.k + 1 < |g| then th.(pc := CFill, k := th.k + 1)
      else if |g| > 0 && g[0] == 0 then th.(pc := WStart)
      else CollectAt(g, th, FirstCollected(c, r))
    case CCLock => th.(pc := CCTest)
    case CCReacq => th.(pc := CCTest)
    case CCTest => th.(pc := if b.s != DONE then CCSleep else CCUnlock)
    case CCUnlock => CollectAt(g, th, th.k + 1)
    case CJoin => th.(pc := CFree)
    case _ => th
  }

  /** queue_work and wait_until_done: the mailbox's part. */
  function CtlBox(th: Thread, b: Mailbox): Mailbox {
    match th.pc
    case CQLock => b.(owner := Some(0))
    case CQSet => PutWork(b, th.k)
    case CQUnlock => b.(owner := None)
    case CCLock => b.(owner := Some(0))
    case CCReacq => b.(owner := Some(0))
    case CCTest => if b.s != DONE then b.(owner := None) else Collect(b)
    case CCUnlock => b.(owner := None)
    case _ => b
  }

  /** A step of the controller: the run_* drivers, queue_work, wait_until_done,
      stop_single_worker. */
  function ControllerStep(c: Config, s: State, w: nat): State
    requires CtlShaped(c, s)
  {
    var th := s.thr[0];
    if th.pc.CDone? then s
    else if th.pc.CInit? then InitStep(c, s)
    else if th.pc.CFree? then FreeStep(c, s)
    else
      var r := c.rounds[s.round];
      var i := r.group[th.k];
      var s1 := s.(thr := s.thr[0 := CtlThread(c, s.round, th, s.box[i])], box := s.box[i := CtlBox(th, s.box[i])]);
      if th.pc.CFill? then s1.(slots := s.slots[th.k := Some(JobOf(r, th.k))])
      else if th.pc.CQSet? && !CanPut(s.box[i]) then s.(failed := true)
      else if th.pc.CQSignal? then Signal(c, s1, i, w)
      else if th.pc.CJoin? && r.stop then s1.(joined := s.joined + [r.group[0]])
      else s1
  }

  /** Start-up, run loop and wait_for_work: the thread's own part. */
  function WaitThread(th: Thread, b: Mailbox): Thread {
    match th.pc
    case WStart => th.(pc := WStartLock)
    case WStartLock => th.(pc := WStartUnlock)
    case WStartUnlock => th.(pc := WLoop)
    case WLoop => th.(pc := if b.run then WLock else WExit)
    case WLock => th.(pc := WTest)
    case WReacq => th.(pc := WTest)
    case WTest =>
      if b.s != QUEUED then th.(pc := WSleep)
      else th.(pc := WUnlock, held := if b.work.Some? then b.work.value else 0)
    case WUnlock => th.(pc := WInit)
    case _ => th
  }

  /** Start-up, run loop and wait_for_work: the mailbox's part. */
  function WaitBox(t: nat, pc: PC, b: Mailbox): Mailbox {
    match pc
    case WStart => b.(run := true)
    case WStartLock => b.(owner := Some(t))
    case WStartUnlock => b.(owner := None)
    case WLock => b.(owner := Some(t))
    case WReacq => b.(owner := Some(t))
    case WTest => if b.s != QUEUED then b.(owner := None) else TakeWork(b)
    case WUnlock => b.(owner := None)
    case _ => b
  }

  function WaitStep(s: State, t: nat): State
    requires t < |s.thr| == |s.box|
  {
    var th, b := s.thr[t], s.box[t];
    if th.pc.WLock? && b.s == WORKING then s.(failed := true)
    else s.(thr := s.thr[t := WaitThread(th, b)], box := s.box[t := WaitBox(t, th.pc, b)])
  }

  /** init_arg, arch_pmu_init and pthread_barrier_wait: the thread's own part. */
  function BarrierThread(th: Thread, bar: Barrier): Thread {
    match th.pc
    case WInit => th.(pc := BLock)
    case BLock => th.(pc := BEnter)
    case BEnter => if Completes(bar) then th.(pc := BBroadcast) else th.(pc := BSleep, saved := bar.phase)
    case BBroadcast => th.(pc := BSerialUnlock)
    case BSerialUnlock => th.(pc := WRep, rep := 0)
    case BReacq => th.(pc := BTest)
    case BTest => if th.saved == bar.phase then th.(pc := BSleep) else th.(pc := BUnlock)
    case BUnlock => th.(pc := WRep, rep := 0)
    case _ => th
  }

  /** pthread_barrier_wait: the barrier's part. */
  function BarrierPart(t: nat, th: Thread, bar: Barrier): Barrier {
    match th.pc
    case BLock => bar.(owner := Some(t))
    case BEnter => if Completes(bar) then Arrive(bar) else Arrive(bar).(owner := None)
    case BSerialUnlock => bar.(owner := None)
    case BReacq => bar.(owner := Some(t))
    case BTest => if th.saved == bar.phase then bar.(owner := None) else bar
    case BUnlock => bar.(owner := None)
    case _ => bar
  }

  function BarrierStep(s: State, t: nat): State
    requires t < |s.thr|
  {
    var th := s.thr[t];
    var thr := if th.pc.BBroadcast? then WakeAll(s.thr) else s.thr;
    s.(thr := thr[t := BarrierThread(th, s.bar)], bar := BarrierPart(t, th, s.bar))
  }

  /** The repetition loop and return_finished_work: the thread's own part. */
  function JobThread(th: Thread, reps: nat): Thread {
    match th.pc
    case WRep => th.(pc := if th.rep < reps then WCall else RLock)
    case WCall => th.(pc := WRep, rep := th.rep + 1, calls := th.calls + 1)
    case RLock => th.(pc := RSet)
    case RSet => th.(pc := RSignal)
    case RSignal => th.(pc := RUnlock)
    case RUnlock => th.(pc := WLoop)
    case _ => th
  }

  /** return_finished_work: the mailbox's part. */
  function JobBox(t: nat, th: Thread, b: Mailbox): Mailbox {
    match th.pc
    case RLock => b.(owner := Some(t))
    case RSet => ReturnWork(b, th.held)
    case RUnlock => b.(owner := None)
    case _ => b
  }

  /** The job a thread in the repetition loop reads through its work pointer. */
  function JobRead(s: State, th: Thread): Job {
    if th.held < |s.slots| && s.slots[th.held].Some? then s.slots[th.held].value else Job(0, None)
  }

  /** The dirigent leaves `worker` after return_finished_work and goes on as the
      controller; every other thread goes back to its run loop. */
  function JobStep(c: Config, s: State, t: nat, w: nat): State
    requires t < |s.thr| == |s.box|
    requires s.thr[t].pc.WCall? ==> var j := JobRead(s, s.thr[t]); j.stop.Some? ==> j.stop.value < |s.box|
  {
    var th := s.thr[t];
    var job := JobRead(s, th);
    var s1 := s.(thr := s.thr[t := JobThread(th, job.reps)], box := s.box[t := JobBox(t, th, s.box[t])]);
    if th.pc.RSet? && !CanReturn(s.box[t]) then s.(failed := true)
    else if th.pc.WCall? && job.stop.Some? then
      SetBox(s1, job.stop.value, s1.box[job.stop.value].(run := false))
    else if th.pc.RSignal? then Signal(c, s1, t, w)
    else if th.pc.RUnlock? && t == 0 then CollectFrom(c, s1, FirstCollected(c, s.round))
    else s1
  }

  /** The enabled step of thread t; w is the thread a signal wakes. */
  function Exec(c: Config, s: State, t: nat, w: nat): State
    requires Shaped(c, s) && Enabled(c, s, t)
  {
    var pc := s.thr[t].pc;
    if CtlPc(pc) then ControllerStep(c, s, w)
    else if PrePc(pc) || pc.WUnlock? then WaitStep(s, t)
    else if pc.WRep? || pc.WCall? || pc.RLock? || pc.RSet? || ReturnedPc(pc) then JobStep(c, s, t, w)
    else BarrierStep(s, t)
  }

  /** The mailbox whose condition variable the next step of t signals. */
  function SignalTarget(c: Config, s: State, t: nat): Option<nat>
    requires Shaped(c, s) && t < c.n
  {
    if s.thr[t].pc.CQSignal? then Some(Group(c, s.round)[s.thr[t].k])
    else if s.thr[t].pc.RSignal? then Some(t)
    else None
  }

  /** A signal wakes a sleeper whenever there is one. */
  predicate WakeChoice(c: Config, s: State, t: nat, w: nat)
    requires Shaped(c, s) && t < c.n
  {
    var i := SignalTarget(c, s, t);
    i.Some? ==> forall u | 0 <= u < c.n && AsleepOn(c, s, u, i.value) :: AsleepOn(c, s, w, i.value)
  }

  datatype Label = Run(t: nat, w: nat) | Spurious(t: nat)

  predicate Next(c: Config, s: State, l: Label, s': State) {
    && Shaped(c, s)
    && match l
       case Run(t, w) => Enabled(c, s, t) && WakeChoice(c, s, t, w) && s' == Exec(c, s, t, w)
       case Spurious(t) => !s.failed && t < c.n && Asleep(s.thr[t].pc) && s' == Goto(s, t, Woken(s.thr[t].pc))
  }

  function Start(c: Config): State {
    State(seq(c.n, t => Thread(if t > 0 then WStart else if |c.rounds| == 0 then CDone else CInit, 0, 0, 0, 0, 0)),
          seq(c.n, _ => Mailbox(None, IDLE, None, true)),
          Barrier(None, 0, 0, 0), [], false, 0, [], false)
  }

  /** A run: its states, one more than its labels. */
  predicate IsRun(c: Config, states: seq<State>, labels: seq<Label>) {
    && |states| == |labels| + 1
    && states[0] == Start(c)
    && forall j {:trigger labels[j]} | 0 <= j < |labels| :: Next(c, states[j], labels[j], states[j + 1])
  }
}
