/** The drivers of main.cc as rounds of the pool, and what whole programs do. */
module Drivers {
  import opened Sync
  import opened Pool
  import opened PoolInvariant
  import opened PoolTermination
  import opened PoolSerial

  /** The worker indices 0, 1, .., m - 1. */
  function Upto(m: nat): seq<nat> {
    seq(m, i requires 0 <= i < m => i)
  }

  function RunInParallel(n: nat, reps: nat): seq<Round> {
    [Round(Upto(n), reps, false, false, true)]
  }

  /** One step for all workers, freed after the last. */
  function RunOneByOne(n: nat, reps: nat): seq<Round> {
    seq(n, i requires 0 <= i < n => Round([i], reps, false, false, i == n - 1))
  }

  /** Like run_in_parallel, but slot 0 is never collected. */
  function RunTwoBenchmarks(n: nat, reps: nat): seq<Round> {
    [Round(Upto(n), reps, true, false, true)]
  }

  /** The stop job for every worker but the dirigent. */
  function StopWorkers(n: nat): seq<Round> {
    if n == 0 then [] else seq(n - 1, i requires 0 <= i < n - 1 => Round([i + 1], 1, false, true, i == n - 2))
  }

  datatype Policy = PARALLEL | ONE_BY_ONE | PAIR

  /** The driver calls main makes for one loop iteration. */
  function Benchmark(p: Policy, n: nat, reps: nat): seq<Round> {
    match p
    case PARALLEL => RunInParallel(n, reps)
    case ONE_BY_ONE => RunOneByOne(n, reps)
    case PAIR => RunTwoBenchmarks(n, reps)
  }

  function Repeat(rs: seq<Round>, times: nat): seq<Round> {
    if times == 0 then [] else Repeat(rs, times - 1) + rs
  }

  /** One turn of main's loop: the entries of the benchmark list that its driver is given. */
  datatype Turn = Turn(first: nat, second: nat)

  predicate Takes(turn: Turn, b: nat) {
    turn.first == b || turn.second == b
  }

  /** The turns of the loop from index i on; under PAIR a turn takes two entries if there are two. */
  function Turns(p: Policy, benchmarks: nat, i: nat): seq<Turn>
    decreases benchmarks - i
  {
    if i >= benchmarks then []
    else if p == PAIR then
      [Turn(i, if i + 1 < benchmarks then i + 1 else i)] + Turns(p, benchmarks, i + 2)
    else [Turn(i, i)] + Turns(p, benchmarks, i + 1)
  }

  function BenchmarkPart(p: Policy, n: nat, benchmarks: nat, reps: nat): seq<Round> {
    RunInParallel(n, 1) + Repeat(Benchmark(p, n, reps), |Turns(p, benchmarks, 0)|)
  }

  /** main: synchronize_worker_init, the benchmarks under one policy, stop_workers. */
  function Program(p: Policy, n: nat, benchmarks: nat, reps: nat): Config {
    Config(n, BenchmarkPart(p, n, benchmarks, reps) + StopWorkers(n))
  }

  // ----- the loop over the benchmarks ---------------------------------------------------

  /** b is taken in one turn and no other. */
  predicate TakenOnce(turns: seq<Turn>, b: nat) {
    exists q | 0 <= q < |turns| :: Takes(turns[q], b) && OnlyTurn(turns, b, q)
  }

  predicate OnlyTurn(turns: seq<Turn>, b: nat, q: nat) {
    forall x | 0 <= x < |turns| && Takes(turns[x], b) :: x == q
  }

  /** The q-th turn after index i, and how many turns there are. */
  lemma {:induction false} TurnAt(p: Policy, benchmarks: nat, i: nat, q: nat)
    ensures var turns, left := Turns(p, benchmarks, i), if i < benchmarks then benchmarks - i else 0;
            && (p != PAIR ==> |turns| == left)
            && (p == PAIR ==> left <= 2 * |turns| <= left + 1)
            && (q < |turns| ==>
                  if p != PAIR then turns[q] == Turn(i + q, i + q)
                  else turns[q].first == i + 2 * q &&
                       turns[q].second == if i + 2 * q + 1 < benchmarks then i + 2 * q + 1 else i + 2 * q)
    decreases benchmarks - i
  {
    if i < benchmarks {
      TurnAt(p, benchmarks, if p == PAIR then i + 2 else i + 1, if q > 0 then q - 1 else 0);
    }
  }

  /** Every entry of the benchmark list is taken in exactly one turn of the loop, two of them
      in every turn under PAIR but for the last turn of an odd list. */
  lemma EveryBenchmarkOnce(p: Policy, benchmarks: nat)
    ensures forall b | 0 <= b < benchmarks :: TakenOnce(Turns(p, benchmarks, 0), b)
    ensures forall turn | turn in Turns(p, benchmarks, 0) :: turn.first < benchmarks && turn.second < benchmarks
    ensures |Turns(p, benchmarks, 0)| == if p == PAIR then (benchmarks + 1) / 2 else benchmarks
  {
    var turns := Turns(p, benchmarks, 0);
    forall q: nat ensures q < |turns| ==> turns[q] == TurnOf(p, benchmarks, q) {
      TurnAt(p, benchmarks, 0, q);
    }
    TurnAt(p, benchmarks, 0, 0);
    forall b | 0 <= b < benchmarks ensures TakenOnce(turns, b) {
      var q := if p == PAIR then b / 2 else b;
      assert Takes(turns[q], b) && OnlyTurn(turns, b, q);
    }
  }

  function TurnOf(p: Policy, benchmarks: nat, q: nat): Turn {
    if p != PAIR then Turn(q, q) else Turn(2 * q, if 2 * q + 1 < benchmarks then 2 * q + 1 else 2 * q)
  }

  lemma NextTurn(p: Policy, benchmarks: nat, i: nat, turns: seq<Turn>)
    requires i < benchmarks
    ensures var turn := Turn(i, if p == PAIR && i + 1 < benchmarks then i + 1 else i);
            turns + Turns(p, benchmarks, i) == turns + [turn] + Turns(p, benchmarks, if p == PAIR then i + 2 else i + 1)
  {
  }

  lemma RepeatMore(first: seq<Round>, rs: seq<Round>, times: nat)
    ensures first + Repeat(rs, times + 1) == first + Repeat(rs, times) + rs
  {
  }

  /** The rounds of main: the loop steps its index once more under PAIR. */
  method MainRounds(p: Policy, n: nat, benchmarks: nat, reps: nat) returns (rounds: seq<Round>, turns: seq<Turn>)
    ensures rounds == Program(p, n, benchmarks, reps).rounds
    ensures turns == Turns(p, benchmarks, 0)
    ensures forall b | 0 <= b < benchmarks :: TakenOnce(turns, b)
  {
    hide RunInParallel, RunOneByOne, RunTwoBenchmarks, StopWorkers, TakenOnce;
    rounds, turns := RunInParallel(n, 1), [];
    var i := 0;
    while i < benchmarks
      invariant turns + Turns(p, benchmarks, i) == Turns(p, benchmarks, 0)
      invariant rounds == RunInParallel(n, 1) + Repeat(Benchmark(p, n, reps), |turns|)
    {
      var driver, turn := [], Turn(i, i);
      NextTurn(p, benchmarks, i, turns);
      RepeatMore(RunInParallel(n, 1), Benchmark(p, n, reps), |turns|);
      match p {
        case PARALLEL => driver := RunInParallel(n, reps);
        case ONE_BY_ONE => driver := RunOneByOne(n, reps);
        case PAIR =>
          var next := if i + 1 < benchmarks then i + 1 else i;
          driver, turn := RunTwoBenchmarks(n, reps), Turn(i, next);
          i := i + 1;
      }
      rounds, turns := rounds + driver, turns + [turn];
      i := i + 1;
    }
    EveryBenchmarkOnce(p, benchmarks);
    rounds := rounds + StopWorkers(n);
  }

  // ----- the rounds are well formed ------------------------------------------------------

  predicate ChainOk(rs: seq<Round>) {
    forall r | 0 <= r < |rs| && !rs[r].free :: r + 1 < |rs| && |rs[r + 1].group| == |rs[r].group|
  }

  predicate PlainOk(n: nat, rs: seq<Round>) {
    ChainOk(rs) && forall r | 0 <= r < |rs| :: RoundOk(n, rs[r]) && !rs[r].stop
  }

  lemma BenchmarkOk(p: Policy, n: nat, reps: nat)
    requires n >= 1
    ensures PlainOk(n, Benchmark(p, n, reps))
  {
    assert Upto(n)[0] == 0;
  }

  lemma {:induction false} RepeatOk(n: nat, rs: seq<Round>, times: nat)
    requires PlainOk(n, rs)
    ensures PlainOk(n, Repeat(rs, times))
  {
    if times > 0 {
      RepeatOk(n, rs, times - 1);
    }
  }

  lemma BenchmarkPartOk(p: Policy, n: nat, benchmarks: nat, reps: nat)
    requires n >= 1
    ensures PlainOk(n, BenchmarkPart(p, n, benchmarks, reps))
  {
    BenchmarkOk(PARALLEL, n, 1);
    BenchmarkOk(p, n, reps);
    RepeatOk(n, Benchmark(p, n, reps), |Turns(p, benchmarks, 0)|);
  }

  lemma {:induction false} NobodyStopped(c: Config, r: nat, t: nat)
    requires r <= |c.rounds| && forall j | 0 <= j < r :: !c.rounds[j].stop
    ensures !StoppedBefore(c, r, t)
    ensures StoppedList(c, r) == []
  {
    if r > 0 {
      NobodyStopped(c, r - 1, t);
    }
  }

  /** After i rounds of stop_workers exactly the workers 1..i are stopped. */
  lemma {:induction false} StoppedSoFar(c: Config, base: nat, i: nat, t: nat)
    requires c.n >= 1 && base <= |c.rounds| && c.rounds[base..] == StopWorkers(c.n) && i <= c.n - 1
    requires forall j | 0 <= j < base :: !c.rounds[j].stop
    ensures base + i <= |c.rounds|
    ensures StoppedBefore(c, base + i, t) <==> 1 <= t <= i
    ensures StoppedList(c, base + i) == Upto(i + 1)[1..]
  {
    assert |c.rounds| == base + (c.n - 1);
    if i == 0 {
      NobodyStopped(c, base, t);
    } else {
      StoppedSoFar(c, base, i - 1, t);
      assert c.rounds[base + i - 1] == c.rounds[base..][i - 1] == Round([i], 1, false, true, i - 1 == c.n - 2);
      assert Upto(i + 1)[1..] == Upto(i)[1..] + [i];
    }
  }

  /** Ordinary rounds followed by stop_workers. */
  predicate StopsLast(c: Config, base: nat) {
    c.n >= 1 && base <= |c.rounds| && PlainOk(c.n, c.rounds[..base]) && c.rounds[base..] == StopWorkers(c.n)
  }

  lemma PlainRound(c: Config, base: nat, r: nat)
    requires StopsLast(c, base) && r < base
    ensures RoundOk(c.n, c.rounds[r]) && !c.rounds[r].stop
    ensures !c.rounds[r].free ==> r + 1 < base && |c.rounds[r + 1].group| == |c.rounds[r].group|
    ensures forall t: nat :: !StoppedBefore(c, r, t)
  {
    assert c.rounds[..base][r] == c.rounds[r];
    if !c.rounds[r].free {
      assert c.rounds[..base][r + 1] == c.rounds[r + 1];
    }
    forall t: nat ensures !StoppedBefore(c, r, t) {
      PlainStops(c, base);
      NobodyStopped(c, r, t);
    }
  }

  lemma PlainStops(c: Config, base: nat)
    requires StopsLast(c, base)
    ensures forall j | 0 <= j < base :: !c.rounds[j].stop
  {
    forall j | 0 <= j < base ensures !c.rounds[j].stop {
      assert c.rounds[..base][j] == c.rounds[j];
    }
  }

  lemma StopRound(c: Config, base: nat, r: nat)
    requires StopsLast(c, base) && base <= r < |c.rounds|
    ensures c.rounds[r] == Round([r - base + 1], 1, false, true, r - base == c.n - 2)
    ensures !StoppedBefore(c, r, r - base + 1)
    ensures !c.rounds[r].free ==> r + 1 < |c.rounds| && |c.rounds[r + 1].group| == 1
    ensures r - base + 1 < c.n
  {
    assert c.rounds[r] == c.rounds[base..][r - base];
    PlainStops(c, base);
    StoppedSoFar(c, base, r - base, r - base + 1);
    if r + 1 < |c.rounds| {
      assert c.rounds[r + 1] == c.rounds[base..][r + 1 - base];
    }
  }

  lemma StopsLastWellFormed(c: Config, base: nat)
    requires StopsLast(c, base)
    ensures WellFormed(c)
  {
    forall r | 0 <= r < |c.rounds|
      ensures RoundOk(c.n, c.rounds[r])
      ensures forall k | 0 <= k < |c.rounds[r].group| :: !StoppedBefore(c, r, c.rounds[r].group[k])
      ensures !c.rounds[r].free ==> r + 1 < |c.rounds| && |Group(c, r + 1)| == |Group(c, r)|
    {
      if r < base { PlainRound(c, base, r); } else { StopRound(c, base, r); }
    }
  }

  lemma ProgramStopsLast(p: Policy, n: nat, benchmarks: nat, reps: nat)
    requires n >= 1
    ensures StopsLast(Program(p, n, benchmarks, reps), |BenchmarkPart(p, n, benchmarks, reps)|)
  {
    var c := Program(p, n, benchmarks, reps);
    var part := BenchmarkPart(p, n, benchmarks, reps);
    BenchmarkPartOk(p, n, benchmarks, reps);
    assert c.rounds[..|part|] == part;
    assert c.rounds[|part|..] == StopWorkers(n);
  }

  // ----- what the program amounts to ------------------------------------------------------

  /** A prefix of the rounds behaves as in a program of its own. */
  lemma {:induction false} SamePrefix(c: Config, d: Config, r: nat, t: nat)
    requires r <= |c.rounds| && r <= |d.rounds| && c.rounds[..r] == d.rounds[..r]
    ensures CallsBefore(c, r, t) == CallsBefore(d, r, t)
    ensures StuckBefore(c, r) == StuckBefore(d, r)
  {
    if r > 0 {
      assert c.rounds[..r - 1] == c.rounds[..r][..r - 1] == d.rounds[..r][..r - 1] == d.rounds[..r - 1];
      assert c.rounds[r - 1] == c.rounds[..r][r - 1] == d.rounds[..r][r - 1] == d.rounds[r - 1];
      SamePrefix(c, d, r - 1, t);
    }
  }

  /** Calls add up over consecutive parts of a program. */
  lemma {:induction false} CallsAdd(n: nat, a: seq<Round>, b: seq<Round>, t: nat)
    ensures CallsBefore(Config(n, a + b), |a + b|, t) ==
            CallsBefore(Config(n, a), |a|, t) + CallsBefore(Config(n, b), |b|, t)
    ensures StuckBefore(Config(n, a + b), |a + b|) == (StuckBefore(Config(n, a), |a|) || StuckBefore(Config(n, b), |b|))
  {
    if |b| == 0 {
      assert a + b == a;
    } else {
      var b0 := b[..|b| - 1];
      CallsAdd(n, a, b0, t);
      assert (a + b)[..|a + b| - 1] == a + b0;
      SamePrefix(Config(n, a + b), Config(n, a + b0), |a + b0|, t);
      SamePrefix(Config(n, b), Config(n, b0), |b0|, t);
      assert (a + b)[|a + b| - 1] == b[|b| - 1];
    }
  }

  lemma {:induction false} OneByOneCalls(n: nat, reps: nat, r: nat, t: nat)
    requires r <= n
    ensures CallsBefore(Config(n, RunOneByOne(n, reps)), r, t) == (if t < r then reps else 0)
    ensures !StuckBefore(Config(n, RunOneByOne(n, reps)), r)
  {
    if r > 0 {
      OneByOneCalls(n, reps, r - 1, t);
      assert RunOneByOne(n, reps)[r - 1].group == [r - 1];
    }
  }

  lemma {:induction false} StopCalls(n: nat, r: nat, t: nat)
    requires n >= 1 && r <= n - 1
    ensures CallsBefore(Config(n, StopWorkers(n)), r, t) == (if 1 <= t <= r then 1 else 0)
    ensures !StuckBefore(Config(n, StopWorkers(n)), r)
  {
    if r > 0 {
      StopCalls(n, r - 1, t);
      assert StopWorkers(n)[r - 1].group == [r];
    }
  }

  /** Every policy gives every worker its repetitions once per iteration. */
  lemma BenchmarkCalls(p: Policy, n: nat, reps: nat, t: nat)
    requires t < n
    ensures var rs := Benchmark(p, n, reps);
            && CallsBefore(Config(n, rs), |rs|, t) == reps
            && (StuckBefore(Config(n, rs), |rs|) <==> p == PAIR)
  {
    if p == ONE_BY_ONE {
      OneByOneCalls(n, reps, n, t);
    } else {
      var c := Config(n, Benchmark(p, n, reps));
      assert Upto(n)[t] == t;
      assert CallsBefore(c, 0, t) == 0 && !StuckBefore(c, 0);
    }
  }

  lemma {:induction false} RepeatCalls(p: Policy, n: nat, reps: nat, times: nat, t: nat)
    requires t < n
    ensures var rs := Repeat(Benchmark(p, n, reps), times);
            && CallsBefore(Config(n, rs), |rs|, t) == times * reps
            && (StuckBefore(Config(n, rs), |rs|) <==> p == PAIR && times > 0)
  {
    if times > 0 {
      RepeatCalls(p, n, reps, times - 1, t);
      BenchmarkCalls(p, n, reps, t);
      CallsAdd(n, Repeat(Benchmark(p, n, reps), times - 1), Benchmark(p, n, reps), t);
      assert times * reps == (times - 1) * reps + reps;
    }
  }

  /** The synchronisation call, the benchmark repetitions and the stop call. */
  lemma ProgramCalls(p: Policy, n: nat, benchmarks: nat, reps: nat, t: nat)
    requires t < n
    ensures var c := Program(p, n, benchmarks, reps);
            && CallsBefore(c, |c.rounds|, t) == 1 + (if p == PAIR then (benchmarks + 1) / 2 else benchmarks) * reps + (if t > 0 then 1 else 0)
            && (StuckBefore(c, |c.rounds|) <==> p == PAIR && benchmarks > 0)
  {
    var part := BenchmarkPart(p, n, benchmarks, reps);
    EveryBenchmarkOnce(p, benchmarks);
    BenchmarkCalls(PARALLEL, n, 1, t);
    RepeatCalls(p, n, reps, |Turns(p, benchmarks, 0)|, t);
    CallsAdd(n, RunInParallel(n, 1), Repeat(Benchmark(p, n, reps), |Turns(p, benchmarks, 0)|), t);
    StopCalls(n, n - 1, t);
    CallsAdd(n, part, StopWorkers(n), t);
  }

  // ----- when the dirigent is left behind ----------------------------------------------------

  lemma {:induction false} RepeatAt(rs: seq<Round>, times: nat, j: nat)
    requires |rs| == 1 && j < times
    ensures |Repeat(rs, times)| == times && Repeat(rs, times)[j] == rs[0]
  {
    if j < times - 1 {
      RepeatAt(rs, times - 1, j);
    } else if times > 1 {
      RepeatAt(rs, times - 1, 0);
    }
  }

  lemma {:induction false} NeverStuck(c: Config, r: nat)
    requires forall j | 0 <= j < r && j < |c.rounds| :: !c.rounds[j].pair
    ensures !StuckBefore(c, r)
  {
    if 0 < r <= |c.rounds| {
      NeverStuck(c, r - 1);
    }
  }

  lemma {:induction false} NoPairs(p: Policy, n: nat, reps: nat, times: nat)
    requires p != PAIR
    ensures forall j | 0 <= j < |Repeat(Benchmark(p, n, reps), times)| :: !Repeat(Benchmark(p, n, reps), times)[j].pair
  {
    if times > 0 {
      NoPairs(p, n, reps, times - 1);
    }
  }

  /** The dirigent can always be queued unless a second pair run comes along. */
  lemma ProgramCollectable(p: Policy, n: nat, benchmarks: nat, reps: nat)
    requires n >= 1
    ensures Collectable(Program(p, n, benchmarks, reps)) <==> p != PAIR || benchmarks <= 2
  {
    var c := Program(p, n, benchmarks, reps);
    var k := |Turns(p, benchmarks, 0)|;
    var rs := Repeat(Benchmark(p, n, reps), k);
    if p != PAIR {
      NoPairs(p, n, reps, k);
      forall j | 0 <= j < |c.rounds| ensures !StuckBefore(c, j) {
        assert forall i | 0 <= i < j :: !c.rounds[i].pair;
        NeverStuck(c, j);
      }
    } else {
      PairCollectable(n, benchmarks, reps);
    }
  }

  lemma PairCollectable(n: nat, benchmarks: nat, reps: nat)
    requires n >= 1
    ensures Collectable(Program(PAIR, n, benchmarks, reps)) <==> benchmarks <= 2
  {
    var c := Program(PAIR, n, benchmarks, reps);
    var k := |Turns(PAIR, benchmarks, 0)|;
    var rs := Repeat(RunTwoBenchmarks(n, reps), k);
    EveryBenchmarkOnce(PAIR, benchmarks);
    assert Upto(n)[0] == 0;
    if k >= 2 {
      RepeatAt(RunTwoBenchmarks(n, reps), k, 0);
      RepeatAt(RunTwoBenchmarks(n, reps), k, 1);
      assert c.rounds[1] == rs[0] && c.rounds[2] == rs[1];
      assert StuckBefore(c, 2);
      assert 0 in c.rounds[2].group && !CollectableUpTo(c, |c.rounds|);
    } else {
      forall j | 0 <= j < |c.rounds| && 0 in c.rounds[j].group ensures !StuckBefore(c, j) {
        if k == 1 {
          RepeatAt(RunTwoBenchmarks(n, reps), 1, 0);
        }
        NeverStuck(c, j);
      }
    }
  }

  lemma PlainWellFormed(n: nat, rs: seq<Round>)
    requires n >= 1 && PlainOk(n, rs)
    ensures WellFormed(Config(n, rs))
  {
    var c := Config(n, rs);
    forall r | 0 <= r < |rs|
      ensures forall k | 0 <= k < |rs[r].group| :: !StoppedBefore(c, r, rs[r].group[k])
    {
      forall k | 0 <= k < |rs[r].group| ensures !StoppedBefore(c, r, rs[r].group[k]) {
        NobodyStopped(c, r, rs[r].group[k]);
      }
    }
  }

  // ----- one driver on a pool that has been in use ----------------------------------------------

  /** A driver called after the rounds `before`. */
  function After(before: seq<Round>, p: Policy, n: nat, reps: nat): Config {
    Config(n, before + Benchmark(p, n, reps))
  }

  lemma {:induction false} StuckGrows(c: Config, r: nat, q: nat)
    requires r <= q <= |c.rounds| && StuckBefore(c, r)
    ensures StuckBefore(c, q)
  {
    if r < q {
      StuckGrows(c, r, q - 1);
    }
  }

  lemma {:induction false} StuckOnlyByPairs(c: Config, r: nat, q: nat)
    requires r <= q <= |c.rounds| && !StuckBefore(c, r)
    requires forall j | r <= j < q :: !c.rounds[j].pair
    ensures !StuckBefore(c, q)
  {
    if r < q {
      StuckOnlyByPairs(c, r, q - 1);
    }
  }

  lemma {:induction false} AfterHistory(before: seq<Round>, p: Policy, n: nat, reps: nat, t: nat)
    requires t < n
    ensures var c, b := After(before, p, n, reps), Config(n, before);
            && CallsBefore(c, |c.rounds|, t) == CallsBefore(b, |before|, t) + reps
            && StuckBefore(c, |before|) == StuckBefore(b, |before|)
            && (StuckBefore(c, |c.rounds|) <==> StuckBefore(b, |before|) || p == PAIR)
  {
    var c := After(before, p, n, reps);
    BenchmarkCalls(p, n, reps, t);
    CallsAdd(n, before, Benchmark(p, n, reps), t);
    assert c.rounds[..|before|] == before == before[..|before|];
    SamePrefix(c, Config(n, before), |before|, t);
  }

  /** The driver can queue to the dirigent exactly when no earlier call has left it behind. */
  lemma {:induction false} AfterCollectable(before: seq<Round>, p: Policy, n: nat, reps: nat)
    requires n >= 1
    ensures Collectable(After(before, p, n, reps)) <==> !StuckBefore(Config(n, before), |before|)
  {
    var c, m := After(before, p, n, reps), |before|;
    AfterHistory(before, p, n, reps, 0);
    assert Upto(n)[0] == 0;
    assert c.rounds[m] == Benchmark(p, n, reps)[0] && 0 in c.rounds[m].group;
    if !StuckBefore(c, m) {
      forall j | 0 <= j < |c.rounds| ensures !StuckBefore(c, j) {
        if j <= m {
          if StuckBefore(c, j) { StuckGrows(c, j, m); }
        } else {
          StuckOnlyByPairs(c, m, j);
        }
      }
    }
  }

  lemma {:induction false} PlainAppend(n: nat, a: seq<Round>, b: seq<Round>)
    requires PlainOk(n, a) && PlainOk(n, b)
    ensures PlainOk(n, a + b)
  {
    var rs := a + b;
    forall r | 0 <= r < |rs|
      ensures RoundOk(n, rs[r]) && !rs[r].stop
      ensures !rs[r].free ==> r + 1 < |rs| && |rs[r + 1].group| == |rs[r].group|
    {
      assert rs[r] == if r < |a| then a[r] else b[r - |a|];
    }
  }

  /** One driver call on a pool that any earlier driver calls have used: every run ends.
      If an earlier pair run has left the dirigent behind, it has aborted in queue_work;
      otherwise every worker has made `reps` more calls, nobody is stopped, and every
      mailbox is idle again - except that run_two_benchmarks leaves the dirigent's DONE. */
  lemma {:induction false} DriverOutcome(before: seq<Round>, p: Policy, n: nat, reps: nat,
                                         states: seq<State>, labels: seq<Label>)
    requires n >= 1 && PlainOk(n, before)
    requires IsRun(After(before, p, n, reps), states, labels) && Quiescent(After(before, p, n, reps), states[|labels|])
    ensures var s, b := states[|labels|], Config(n, before);
            && (s.failed <==> StuckBefore(b, |before|))
            && (!s.failed ==>
                  && |s.thr| == |s.box| == n && !s.alive
                  && (forall t | 0 <= t < n :: s.thr[t].calls == CallsBefore(b, |before|, t) + reps && !s.thr[t].pc.WExit?)
                  && (forall t | 0 <= t < n :: CanPut(s.box[t]) <==> !(p == PAIR && t == 0)))
  {
    var c := After(before, p, n, reps);
    BenchmarkOk(p, n, reps);
    PlainAppend(n, before, Benchmark(p, n, reps));
    PlainWellFormed(n, c.rounds);
    RunOutcome(c, states, labels);
    AfterCollectable(before, p, n, reps);
    forall t | 0 <= t < n
      ensures CallsBefore(c, |c.rounds|, t) == CallsBefore(Config(n, before), |before|, t) + reps
      ensures !StoppedBefore(c, |c.rounds|, t)
      ensures StuckBefore(c, |c.rounds|) <==> StuckBefore(Config(n, before), |before|) || p == PAIR
    {
      AfterHistory(before, p, n, reps, t);
      NobodyStopped(c, |c.rounds|, t);
    }
    assert 0 < n;
  }

  lemma ProgramHistory(p: Policy, n: nat, benchmarks: nat, reps: nat, t: nat)
    requires t < n
    ensures var c := Program(p, n, benchmarks, reps);
            && CallsBefore(c, |c.rounds|, t) == 1 + (if p == PAIR then (benchmarks + 1) / 2 else benchmarks) * reps + (if t > 0 then 1 else 0)
            && (StuckBefore(c, |c.rounds|) <==> p == PAIR && benchmarks > 0)
            && (StoppedBefore(c, |c.rounds|, t) <==> t > 0)
            && |StoppedList(c, |c.rounds|)| == n - 1
            && forall i | 0 <= i < n - 1 :: StoppedList(c, |c.rounds|)[i] == i + 1
  {
    ProgramCalls(p, n, benchmarks, reps, t);
    ProgramStopsLast(p, n, benchmarks, reps);
    AllStopped(Program(p, n, benchmarks, reps), |BenchmarkPart(p, n, benchmarks, reps)|, t);
  }

  lemma AllStopped(c: Config, base: nat, t: nat)
    requires StopsLast(c, base) && t < c.n
    ensures StoppedBefore(c, |c.rounds|, t) <==> t > 0
    ensures StoppedList(c, |c.rounds|) == Upto(c.n)[1..]
  {
    PlainStops(c, base);
    StoppedSoFar(c, base, c.n - 1, t);
    assert |c.rounds| == base + |c.rounds[base..]|;
  }

  /** What a finished program has done. */
  predicate ProgramDone(p: Policy, n: nat, benchmarks: nat, reps: nat, s: State) {
    && !s.failed && |s.thr| == |s.box| == n && n > 0 && !s.alive
    && |s.joined| == n - 1 && (forall i | 0 <= i < n - 1 :: s.joined[i] == i + 1)
    && (forall t | 0 <= t < n :: s.thr[t].calls == 1 + (if p == PAIR then (benchmarks + 1) / 2 else benchmarks) * reps + (if t > 0 then 1 else 0))
    && (forall t | 0 < t < n :: s.thr[t].pc.WExit? && CanPut(s.box[t]))
    && (if p == PAIR && benchmarks > 0 then s.box[0].s == DONE else CanPut(s.box[0]))
  }

  lemma FinishedProgram(p: Policy, n: nat, benchmarks: nat, reps: nat, s: State)
    requires n >= 1 && Finished(Program(p, n, benchmarks, reps), s)
    ensures ProgramDone(p, n, benchmarks, reps, s)
  {
    ProgramHistory(p, n, benchmarks, reps, 0);
    forall t | 0 <= t < n
      ensures s.thr[t].calls == 1 + (if p == PAIR then (benchmarks + 1) / 2 else benchmarks) * reps + (if t > 0 then 1 else 0)
      ensures t > 0 ==> s.thr[t].pc.WExit? && CanPut(s.box[t])
    {
      ProgramHistory(p, n, benchmarks, reps, t);
    }
  }

  /** The whole program.  Under PARALLEL and ONE_BY_ONE, and under PAIR with at most
      two benchmarks, every run ends with all work done and workers 1.. joined in
      order; under PAIR with more than two benchmarks every run aborts in
      queue_work. */
  lemma ProgramOutcome(p: Policy, n: nat, benchmarks: nat, reps: nat, states: seq<State>, labels: seq<Label>)
    requires n >= 1 && IsRun(Program(p, n, benchmarks, reps), states, labels)
    requires Quiescent(Program(p, n, benchmarks, reps), states[|labels|])
    ensures states[|labels|].failed <==> p == PAIR && benchmarks > 2
    ensures ProgramDone(p, n, benchmarks, reps, states[|labels|]) <==> p != PAIR || benchmarks <= 2
  {
    var c := Program(p, n, benchmarks, reps);
    ProgramStopsLast(p, n, benchmarks, reps);
    StopsLastWellFormed(c, |BenchmarkPart(p, n, benchmarks, reps)|);
    ProgramCollectable(p, n, benchmarks, reps);
    RunOutcome(c, states, labels);
    if Collectable(c) {
      FinishedProgram(p, n, benchmarks, reps, states[|labels|]);
    }
  }

  // ----- the serial parts of a program -------------------------------------------------------

  /** Rounds with one member that collect it. */
  predicate AllSingle(rs: seq<Round>) {
    forall r | 0 <= r < |rs| :: |rs[r].group| == 1 && !rs[r].pair
  }

  lemma {:induction false} RepeatSingle(rs: seq<Round>, times: nat)
    requires AllSingle(rs)
    ensures AllSingle(Repeat(rs, times))
  {
    if times > 0 {
      RepeatSingle(rs, times - 1);
    }
  }

  /** In the rounds from `base` on at most one worker is at work and nobody waits. */
  lemma SerialFrom(c: Config, base: nat, states: seq<State>, labels: seq<Label>, j: nat, t: nat, u: nat)
    requires WellFormed(c) && base <= |c.rounds| && AllSingle(c.rounds[base..])
    requires IsRun(c, states, labels) && j <= |labels| && t < c.n && u < c.n && t != u
    requires states[j].round >= base
    ensures NobodyWaits(states[j]) && |states[j].box| == c.n
    ensures states[j].box[t].s == IDLE || states[j].box[u].s == IDLE ||
            ((t == 0 || u == 0) && StuckBefore(c, states[j].round))
  {
    var r := states[j].round;
    if r < |c.rounds| {
      assert c.rounds[r] == c.rounds[base..][r - base];
    }
    SerialNeverWaits(c, states, labels, j);
    SerialOneBusy(c, states, labels, j, t, u);
  }

  lemma ProgramWellFormed(p: Policy, n: nat, benchmarks: nat, reps: nat)
    requires n >= 1
    ensures WellFormed(Program(p, n, benchmarks, reps))
  {
    ProgramStopsLast(p, n, benchmarks, reps);
    StopsLastWellFormed(Program(p, n, benchmarks, reps), |BenchmarkPart(p, n, benchmarks, reps)|);
  }

  /** run_one_by_one in a whole program: from the end of the synchronisation round on at
      most one mailbox is in use, and nobody ever waits at the barrier. */
  lemma OneByOneIsSerial(n: nat, benchmarks: nat, reps: nat, states: seq<State>, labels: seq<Label>, j: nat, t: nat, u: nat)
    requires IsRun(Program(ONE_BY_ONE, n, benchmarks, reps), states, labels) && j <= |labels|
    requires t < n && u < n && t != u && states[j].round >= 1
    ensures NobodyWaits(states[j]) && |states[j].box| == n
    ensures states[j].box[t].s == IDLE || states[j].box[u].s == IDLE
  {
    var c := Program(ONE_BY_ONE, n, benchmarks, reps);
    ProgramWellFormed(ONE_BY_ONE, n, benchmarks, reps);
    OneByOneRounds(n, benchmarks, reps, states[j].round);
    SerialFrom(c, 1, states, labels, j, t, u);
  }

  lemma OneByOneRounds(n: nat, benchmarks: nat, reps: nat, r: nat)
    ensures var c := Program(ONE_BY_ONE, n, benchmarks, reps);
            |c.rounds| >= 1 && AllSingle(c.rounds[1..]) && !StuckBefore(c, r)
  {
    var c := Program(ONE_BY_ONE, n, benchmarks, reps);
    EveryBenchmarkOnce(ONE_BY_ONE, benchmarks);
    RepeatSingle(RunOneByOne(n, reps), benchmarks);
    assert c.rounds[1..] == Repeat(RunOneByOne(n, reps), benchmarks) + StopWorkers(n);
    NoPairs(ONE_BY_ONE, n, reps, benchmarks);
    NeverStuck(c, r);
  }

  /** stop_workers in a whole program, under any policy: at most one worker's mailbox is
      in use, not counting the dirigent's after a pair run, and nobody ever waits. */
  lemma StoppingIsSerial(p: Policy, n: nat, benchmarks: nat, reps: nat, states: seq<State>, labels: seq<Label>,
                         j: nat, t: nat, u: nat)
    requires IsRun(Program(p, n, benchmarks, reps), states, labels) && j <= |labels|
    requires t < n && u < n && t != u && states[j].round >= |BenchmarkPart(p, n, benchmarks, reps)|
    ensures NobodyWaits(states[j]) && |states[j].box| == n
    ensures states[j].box[t].s == IDLE || states[j].box[u].s == IDLE || ((t == 0 || u == 0) && p == PAIR && benchmarks > 0)
  {
    var c, base := Program(p, n, benchmarks, reps), |BenchmarkPart(p, n, benchmarks, reps)|;
    ProgramWellFormed(p, n, benchmarks, reps);
    assert c.rounds[base..] == StopWorkers(n);
    SerialFrom(c, base, states, labels, j, t, u);
    StoppingStuck(p, n, benchmarks, reps, states[j].round);
  }

  lemma StoppingStuck(p: Policy, n: nat, benchmarks: nat, reps: nat, r: nat)
    requires n >= 1
    ensures StuckBefore(Program(p, n, benchmarks, reps), r) ==> p == PAIR && benchmarks > 0
  {
    var c := Program(p, n, benchmarks, reps);
    ProgramHistory(p, n, benchmarks, reps, 0);
    if StuckBefore(c, r) {
      StuckGrows(c, r, |c.rounds|);
    }
  }
}
