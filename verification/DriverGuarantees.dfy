/** What is true inside the drivers of main.cc while they run: who works together with whom. */
module DriverGuarantees {
  import opened Sync
  import opened Pool
  import opened PoolInvariant
  import opened PoolGuarantees
  import opened Drivers

  /** A thread of a round has its job and has arrived at the barrier, or has made all the
      calls of the round. */
  predicate Started(th: Thread, b: Mailbox, callsAfter: nat) {
    (b.s == WORKING && !BeforeBarrierPc(th.pc)) || th.calls == callsAfter
  }

  lemma StartedLocal(c: Config, v: View, slots: seq<Option<Job>>, u: nat, th: Thread, b: Mailbox)
    requires Local(c, v, slots, u, th, b) && v.round < |c.rounds| && u in Group(c, v.round)
    requires IndexOf(Group(c, v.round), u) < v.hi && b.s != QUEUED && !BeforeBarrierPc(th.pc)
    ensures Started(th, b, CallsBefore(c, v.round, u) + c.rounds[v.round].reps)
  {
  }

  lemma StartedIn(c: Config, s: State, k: nat)
    requires Sizes(c, s) && s.round < |c.rounds| && k < |Group(c, s.round)| && Distinct(Group(c, s.round))
    requires var u := Group(c, s.round)[k];
             u < c.n && LocalIn(c, s, u) && k < ViewOf(c, s).hi && s.box[u].s != QUEUED && !BeforeBarrierPc(s.thr[u].pc)
    requires ViewOf(c, s).round == s.round
    ensures var u := Group(c, s.round)[k];
            Started(s.thr[u], s.box[u], CallsBefore(c, s.round, u) + c.rounds[s.round].reps)
  {
    var u := Group(c, s.round)[k];
    IndexUnique(Group(c, s.round), k);
    StartedLocal(c, ViewOf(c, s), s.slots, u, s.thr[u], s.box[u]);
  }

  /** Whenever a member of a round executes a call, every member has started. */
  lemma MembersStarted(c: Config, states: seq<State>, labels: seq<Label>, j: nat, t: nat, k: nat)
    requires WellFormed(c) && IsRun(c, states, labels) && j <= |labels| && t < c.n
    requires |states[j].thr| == c.n && states[j].thr[t].pc.WCall?
    requires states[j].round < |c.rounds| && k < |Group(c, states[j].round)|
    ensures var s, u := states[j], Group(c, states[j].round)[k];
            |s.box| == c.n && u < c.n && Started(s.thr[u], s.box[u], CallsBefore(c, s.round, u) + c.rounds[s.round].reps)
  {
    SynchronisedStart(c, states, labels, j, t, k);
    ReachedLocal(c, states, labels, j, Group(c, states[j].round)[k]);
    assert RoundOk(c.n, c.rounds[states[j].round]);
    assert ViewOf(c, states[j]).round == states[j].round;
    StartedIn(c, states[j], k);
  }

  /** A round that puts worker k on slot k, for all n workers. */
  predicate ForAll(n: nat, r: Round) {
    |r.group| == n && forall k | 0 <= k < n :: r.group[k] == k
  }

  /** In such a round nobody executes a call before everybody has started, at a barrier for
      n threads, and everybody works on the slot of its own number. */
  lemma AllTogether(c: Config, states: seq<State>, labels: seq<Label>, j: nat, t: nat, u: nat)
    requires WellFormed(c) && IsRun(c, states, labels) && j <= |labels| && t < c.n && u < c.n
    requires states[j].round < |c.rounds| && ForAll(c.n, c.rounds[states[j].round])
    requires |states[j].thr| == c.n && states[j].thr[t].pc.WCall?
    ensures var s := states[j];
            && |s.box| == c.n && s.thr[t].held == t && s.bar.limit == c.n
            && Started(s.thr[u], s.box[u], CallsBefore(c, s.round, u) + c.rounds[s.round].reps)
  {
    StepStaysValid(c, states, labels, j, t);
    MembersStarted(c, states, labels, j, t, u);
  }

  // ----- the drivers --------------------------------------------------------------------------

  lemma DriverWellFormed(before: seq<Round>, p: Policy, n: nat, reps: nat)
    requires n >= 1 && PlainOk(n, before)
    ensures WellFormed(Drivers.After(before, p, n, reps))
  {
    BenchmarkOk(p, n, reps);
    PlainAppend(n, before, Benchmark(p, n, reps));
    PlainWellFormed(n, before + Benchmark(p, n, reps));
  }

  /** run_in_parallel and run_two_benchmarks, after any earlier drivers: whenever a worker
      executes a call, every worker has its job and has arrived at the barrier of all n, or
      has made all its calls; and worker t works on slot t, whose results are row t. */
  lemma DriverTogether(before: seq<Round>, p: Policy, n: nat, reps: nat,
                       states: seq<State>, labels: seq<Label>, j: nat, t: nat, u: nat)
    requires n >= 1 && PlainOk(n, before) && p != ONE_BY_ONE
    requires IsRun(Drivers.After(before, p, n, reps), states, labels) && j <= |labels| && t < n && u < n
    requires states[j].round >= |before| && |states[j].thr| == n && states[j].thr[t].pc.WCall?
    ensures var s, b := states[j], Config(n, before);
            && |s.box| == n && s.thr[t].held == t && s.bar.limit == n
            && ((s.box[u].s == WORKING && !BeforeBarrierPc(s.thr[u].pc)) ||
                s.thr[u].calls == CallsBefore(b, |before|, u) + reps)
  {
    var c := Drivers.After(before, p, n, reps);
    hide CallsBefore;
    DriverWellFormed(before, p, n, reps);
    StepStaysValid(c, states, labels, j, t);
    DriverRound(before, p, n, reps, states[j].round, u);
    AllTogether(c, states, labels, j, t, u);
  }

  lemma DriverRound(before: seq<Round>, p: Policy, n: nat, reps: nat, r: nat, u: nat)
    requires p != ONE_BY_ONE && |before| <= r < |Drivers.After(before, p, n, reps).rounds|
    ensures var c := Drivers.After(before, p, n, reps);
            && r == |before| && ForAll(n, c.rounds[r]) && c.rounds[r].reps == reps
            && CallsBefore(c, r, u) == CallsBefore(Config(n, before), |before|, u)
  {
    var c := Drivers.After(before, p, n, reps);
    assert c.rounds[r] == Benchmark(p, n, reps)[0];
    assert c.rounds[..|before|] == before == before[..|before|];
    SamePrefix(c, Config(n, before), |before|, u);
  }

  /** run_one_by_one, after any earlier drivers: whenever a worker executes a call, it works
      alone at a barrier for one, the workers before it have made all their calls and the
      workers after it none. */
  lemma DriverInTurn(before: seq<Round>, n: nat, reps: nat,
                     states: seq<State>, labels: seq<Label>, j: nat, t: nat, u: nat)
    requires n >= 1 && PlainOk(n, before)
    requires IsRun(Drivers.After(before, ONE_BY_ONE, n, reps), states, labels) && j <= |labels| && t < n && u < n && u != t
    requires states[j].round >= |before| && |states[j].thr| == n && states[j].thr[t].pc.WCall?
    ensures var s, b := states[j], Config(n, before);
            && s.thr[t].held == 0 && s.bar.limit == 1 && !WorkPc(s.thr[u].pc)
            && s.thr[u].calls == CallsBefore(b, |before|, u) + (if u < t then reps else 0)
  {
    var c := Drivers.After(before, ONE_BY_ONE, n, reps);
    hide CallsBefore;
    DriverWellFormed(before, ONE_BY_ONE, n, reps);
    StepStaysValid(c, states, labels, j, t);
    TurnGroup(before, n, reps, states[j].round);
    assert t == states[j].round - |before|;
    OutsideRound(c, states, labels, j, u);
    CallsInTurn(before, n, reps, states[j].round, u);
  }

  lemma TurnGroup(before: seq<Round>, n: nat, reps: nat, r: nat)
    requires |before| <= r < |Drivers.After(before, ONE_BY_ONE, n, reps).rounds|
    ensures Group(Drivers.After(before, ONE_BY_ONE, n, reps), r) == [r - |before|] && r <= |before| + n
  {
    assert Drivers.After(before, ONE_BY_ONE, n, reps).rounds[r] == RunOneByOne(n, reps)[r - |before|];
  }

  lemma OutsideRound(c: Config, states: seq<State>, labels: seq<Label>, j: nat, u: nat)
    requires WellFormed(c) && IsRun(c, states, labels) && j <= |labels| && u < c.n
    requires u !in Group(c, states[j].round)
    ensures var s := states[j];
            |s.thr| == c.n && s.thr[u].calls == CallsBefore(c, s.round, u) && !WorkPc(s.thr[u].pc)
  {
    ReachedLocal(c, states, labels, j, u);
    OutsideIn(c, states[j], u);
  }

  lemma OutsideIn(c: Config, s: State, u: nat)
    requires Sizes(c, s) && u < c.n && LocalIn(c, s, u) && u !in Group(c, s.round)
    ensures s.thr[u].calls == CallsBefore(c, s.round, u) && !WorkPc(s.thr[u].pc)
  {
    assert ViewOf(c, s).round == s.round;
    OutsideLocal(c, ViewOf(c, s), s.slots, u, s.thr[u], s.box[u]);
  }

  lemma OutsideLocal(c: Config, v: View, slots: seq<Option<Job>>, u: nat, th: Thread, b: Mailbox)
    requires Local(c, v, slots, u, th, b) && u !in Group(c, v.round)
    ensures th.calls == CallsBefore(c, v.round, u) && !WorkPc(th.pc)
  {
  }

  lemma CallsInTurn(before: seq<Round>, n: nat, reps: nat, r: nat, u: nat)
    requires |before| <= r <= |before| + n
    ensures CallsBefore(Drivers.After(before, ONE_BY_ONE, n, reps), r, u) ==
            CallsBefore(Config(n, before), |before|, u) + (if u < r - |before| then reps else 0)
  {
    var c, turns := Drivers.After(before, ONE_BY_ONE, n, reps), RunOneByOne(n, reps)[..r - |before|];
    FirstTurns(n, reps, r - |before|, u);
    CallsAdd(n, before, turns, u);
    assert c.rounds[..r] == before + turns == (before + turns)[..r];
    SamePrefix(c, Config(n, before + turns), r, u);
  }

  lemma FirstTurns(n: nat, reps: nat, i: nat, u: nat)
    requires i <= n
    ensures var turns := RunOneByOne(n, reps)[..i];
            CallsBefore(Config(n, turns), |turns|, u) == if u < i then reps else 0
  {
    var rs := RunOneByOne(n, reps);
    assert rs[..i][..i] == rs[..i];
    SamePrefix(Config(n, rs), Config(n, rs[..i]), i, u);
    OneByOneCalls(n, reps, i, u);
  }

  // ----- one step per driver --------------------------------------------------------------------

  lemma StepAlive(c: Config, states: seq<State>, labels: seq<Label>, j: nat)
    requires WellFormed(c) && IsRun(c, states, labels) && j <= |labels| && states[j].round < |c.rounds|
    ensures var s := states[j];
            && |s.thr| == c.n
            && (s.alive <==> !(s.thr[0].pc.CInit? && Fresh(c, s.round)))
            && (s.alive ==> s.bar.limit == |Group(c, s.round)|)
  {
    Reached(c, states, labels, j);
    var s := states[j].(failed := false);
    assert BarrierOk(c, s) && StepLive(c, s) == StepLive(c, states[j]);
  }

  lemma FreeOnce(before: seq<Round>, p: Policy, n: nat, reps: nat, r: nat)
    requires n >= 1 && PlainOk(n, before) && |before| <= r < |Drivers.After(before, p, n, reps).rounds|
    ensures Fresh(Drivers.After(before, p, n, reps), r) <==> r == |before|
  {
    var c := Drivers.After(before, p, n, reps);
    if 0 < r == |before| {
      assert c.rounds[r - 1] == before[r - 1];
    } else if r > |before| {
      assert c.rounds[r - 1] == Benchmark(p, n, reps)[r - 1 - |before|];
    }
  }

  /** A driver initialises its step once: before that there is none, and from then on it lives
      until the last worker has been collected. */
  lemma OneStepPerDriver(before: seq<Round>, p: Policy, n: nat, reps: nat,
                         states: seq<State>, labels: seq<Label>, j: nat)
    requires n >= 1 && PlainOk(n, before)
    requires IsRun(Drivers.After(before, p, n, reps), states, labels) && j <= |labels|
    requires |before| <= states[j].round < |Drivers.After(before, p, n, reps).rounds|
    ensures var s := states[j];
            |s.thr| == n && (s.alive <==> !(s.thr[0].pc.CInit? && s.round == |before|))
  {
    DriverWellFormed(before, p, n, reps);
    StepAlive(Drivers.After(before, p, n, reps), states, labels, j);
    FreeOnce(before, p, n, reps, states[j].round);
  }

  lemma FreeBeforeStopping(p: Policy, n: nat, benchmarks: nat, reps: nat, r: nat)
    requires n >= 1
    requires |BenchmarkPart(p, n, benchmarks, reps)| <= r < |Program(p, n, benchmarks, reps).rounds|
    ensures Fresh(Program(p, n, benchmarks, reps), r) <==> r == |BenchmarkPart(p, n, benchmarks, reps)|
  {
    var part := BenchmarkPart(p, n, benchmarks, reps);
    BenchmarkPartOk(p, n, benchmarks, reps);
    if r == |part| {
      assert (part + StopWorkers(n))[r - 1] == part[r - 1];
    } else {
      assert (part + StopWorkers(n))[r - 1] == StopWorkers(n)[r - 1 - |part|];
    }
  }

  /** stop_workers uses one step for all the threads it stops. */
  lemma OneStepForStopping(p: Policy, n: nat, benchmarks: nat, reps: nat,
                           states: seq<State>, labels: seq<Label>, j: nat)
    requires n >= 1 && IsRun(Program(p, n, benchmarks, reps), states, labels) && j <= |labels|
    requires |BenchmarkPart(p, n, benchmarks, reps)| <= states[j].round < |Program(p, n, benchmarks, reps).rounds|
    ensures var s := states[j];
            && |s.thr| == n
            && (s.alive <==> !(s.thr[0].pc.CInit? && s.round == |BenchmarkPart(p, n, benchmarks, reps)|))
  {
    var c, base, r := Program(p, n, benchmarks, reps), |BenchmarkPart(p, n, benchmarks, reps)|, states[j].round;
    ProgramWellFormed(p, n, benchmarks, reps);
    StepAlive(c, states, labels, j);
    FreeBeforeStopping(p, n, benchmarks, reps, r);
  }

  // ----- whole programs -----------------------------------------------------------------------

  lemma {:induction false} ForAllCalls(c: Config, reps: nat, r: nat, u: nat)
    requires r <= |c.rounds| && u < c.n
    requires forall x | 0 <= x < r :: ForAll(c.n, c.rounds[x]) && c.rounds[x].reps == if x == 0 then 1 else reps
    ensures CallsBefore(c, r, u) == if r == 0 then 0 else 1 + (r - 1) * reps
  {
    if r > 0 {
      ForAllCalls(c, reps, r - 1, u);
      assert c.rounds[r - 1].group[u] == u;
      assert r > 1 ==> (r - 1) * reps == (r - 2) * reps + reps;
    }
  }

  lemma ProgramRound(p: Policy, n: nat, benchmarks: nat, reps: nat, r: nat)
    requires r < |BenchmarkPart(p, n, benchmarks, reps)| && (p != ONE_BY_ONE || r == 0)
    ensures var c := Program(p, n, benchmarks, reps);
            && r < |c.rounds| && ForAll(n, c.rounds[r])
            && c.rounds[r].reps == if r == 0 then 1 else reps
  {
    var k := |Turns(p, benchmarks, 0)|;
    if r > 0 {
      RepeatAt(Benchmark(p, n, reps), k, if k > 0 then k - 1 else 0);
      RepeatAt(Benchmark(p, n, reps), k, r - 1);
    }
  }

  lemma CallsAfterRound(p: Policy, n: nat, benchmarks: nat, reps: nat, r: nat, u: nat)
    requires r < |BenchmarkPart(p, n, benchmarks, reps)| && (p != ONE_BY_ONE || r == 0) && u < n
    ensures var c := Program(p, n, benchmarks, reps);
            && r < |c.rounds| && ForAll(n, c.rounds[r])
            && CallsBefore(c, r, u) + c.rounds[r].reps == 1 + r * reps
  {
    var c := Program(p, n, benchmarks, reps);
    forall x | 0 <= x <= r ensures ForAll(n, c.rounds[x]) && c.rounds[x].reps == if x == 0 then 1 else reps {
      ProgramRound(p, n, benchmarks, reps, x);
    }
    ForAllCalls(c, reps, r, u);
    assert r > 0 ==> r * reps == (r - 1) * reps + reps;
  }

  /** The same in a whole program: in the synchronisation round of every policy and in all
      benchmark rounds under PARALLEL and PAIR, whenever a worker executes a call every worker
      has started; in round r that is its call number 1 + r * reps at the latest. */
  lemma ProgramTogether(p: Policy, n: nat, benchmarks: nat, reps: nat,
                        states: seq<State>, labels: seq<Label>, j: nat, t: nat, u: nat)
    requires IsRun(Program(p, n, benchmarks, reps), states, labels) && j <= |labels| && t < n && u < n
    requires |states[j].thr| == n && states[j].thr[t].pc.WCall?
    requires states[j].round < |BenchmarkPart(p, n, benchmarks, reps)| && (p != ONE_BY_ONE || states[j].round == 0)
    ensures var s := states[j];
            && |s.box| == n && s.thr[t].held == t && s.bar.limit == n
            && ((s.box[u].s == WORKING && !BeforeBarrierPc(s.thr[u].pc)) || s.thr[u].calls == 1 + s.round * reps)
  {
    var c, r := Program(p, n, benchmarks, reps), states[j].round;
    ProgramWellFormed(p, n, benchmarks, reps);
    CallsAfterRound(p, n, benchmarks, reps, r, u);
    AllTogether(c, states, labels, j, t, u);
  }
}
