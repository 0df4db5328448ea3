/** PMU counters: events that cannot be opened are skipped and later ones move down. */
module Counters {
  /** The events that resolve and open, in order. */
  function Resolved(ok: seq<bool>): (slots: seq<nat>)
    ensures |slots| <= |ok|
  {
    if ok == [] then []
    else
      var n := |ok| - 1;
      Resolved(ok[..n]) + (if ok[n] then [n] else [])
  }

  /** arch_pmu_init: ctx holds the event that each active slot counts. */
  method Init(ok: seq<bool>) returns (ctx: array<nat>, active: nat)
    ensures fresh(ctx) && active <= ctx.Length == |ok| && ctx[..active] == Resolved(ok)
  {
    ctx := new nat[|ok|];
    active := 0;
    for i := 0 to |ok|
      invariant active <= i && ctx[..active] == Resolved(ok[..i])
    {
      assert ok[..i + 1][..i] == ok[..i];
      if ok[i] {
        ctx[active] := i;
        active := active + 1;
      }
    }
    assert ok[..|ok|] == ok;
  }

  /** The slots hold exactly the resolving events, in ascending order. */
  lemma {:induction false} ResolvedExact(ok: seq<bool>)
    ensures forall j, k | 0 <= j < k < |Resolved(ok)| :: Resolved(ok)[j] < Resolved(ok)[k]
    ensures forall k | 0 <= k < |Resolved(ok)| :: Resolved(ok)[k] < |ok| && ok[Resolved(ok)[k]]
    ensures forall i | 0 <= i < |ok| && ok[i] :: i in Resolved(ok)
    decreases |ok|
  {
    if ok != [] {
      var n := |ok| - 1;
      var prefix := Resolved(ok[..n]);
      ResolvedExact(ok[..n]);
      assert forall i | 0 <= i < n && ok[i] :: i in prefix by {
        forall i | 0 <= i < n && ok[i] ensures i in prefix {
          assert ok[..n][i];
        }
      }
    }
  }

  /** The title printed for slot k is the name of event k. */
  predicate TitlesMatch(ok: seq<bool>) {
    forall k | 0 <= k < |Resolved(ok)| :: Resolved(ok)[k] == k
  }

  /** No event resolves after one that does not. */
  predicate NoneAfterFailure(ok: seq<bool>) {
    forall i, j | 0 <= i < j < |ok| && ok[j] :: ok[i]
  }

  /** Titles of written slots are right exactly when no event resolves after one that does not. */
  lemma TitlesMatchExactly(ok: seq<bool>)
    ensures TitlesMatch(ok) <==> NoneAfterFailure(ok)
  {
    ResolvedExact(ok);
    var r := Resolved(ok);
    if TitlesMatch(ok) {
      forall i, j | 0 <= i < j < |ok| && ok[j] ensures ok[i] {
        assert j in r;
        assert r[i] == i;
      }
    } else {
      var k :| 0 <= k < |r| && r[k] != k;
      Gap(r, k);
      MissingBelow(ok, k);
    }
  }

  /** A strictly ascending sequence that leaves its place runs ahead of it. */
  lemma {:induction false} Gap(r: seq<nat>, k: nat)
    requires forall j, m | 0 <= j < m < |r| :: r[j] < r[m]
    requires k < |r|
    ensures r[k] >= k
    decreases k
  {
    if k > 0 {
      Gap(r, k - 1);
      assert r[k - 1] < r[k];
    }
  }

  /** If slot k counts a later event, some earlier event does not resolve. */
  lemma MissingBelow(ok: seq<bool>, k: nat)
    requires k < |Resolved(ok)| && Resolved(ok)[k] > k
    ensures exists i, j | 0 <= i < j < |ok| && ok[j] :: !ok[i]
  {
    ResolvedExact(ok);
    var r := Resolved(ok);
    if forall i | 0 <= i < r[k] :: ok[i] {
      AllBelow(ok, r, k, k);
    } else {
      var i :| 0 <= i < r[k] && !ok[i];
      assert ok[r[k]] && !ok[i];
    }
  }

  /** If all events below slot k's resolve, the first k slots count them. */
  lemma {:induction false} AllBelow(ok: seq<bool>, r: seq<nat>, k: nat, m: nat)
    requires r == Resolved(ok) && m <= k < |r| && r[k] <= |ok|
    requires forall i | 0 <= i < r[k] :: ok[i]
    ensures m < k ==> r[m] == m
    ensures m == k ==> r[k] == k
    decreases m
  {
    ResolvedExact(ok);
    if m > 0 {
      AllBelow(ok, r, k, m - 1);
    }
    Gap(r, m);
    assert m < r[k] ==> m in r;
  }

  /** Every event gets a slot with the right title exactly when every event resolves. */
  lemma AllResolve(ok: seq<bool>)
    ensures |Resolved(ok)| == |ok| && TitlesMatch(ok) <==> forall i | 0 <= i < |ok| :: ok[i]
  {
    ResolvedExact(ok);
    TitlesMatchExactly(ok);
    if forall i | 0 <= i < |ok| :: ok[i] {
      if ok != [] {
        assert |ok| - 1 in Resolved(ok);
      }
    }
    if |Resolved(ok)| == |ok| && TitlesMatch(ok) {
      forall i | 0 <= i < |ok| ensures ok[i] {
        assert Resolved(ok)[i] == i;
      }
    }
  }
}

/** From a worker's repetitions to the printed table. */
module Measure {
  import opened Layouts
  import opened Counters
  import Division

  const WORD64: nat := 0x1_0000_0000_0000_0000

  /** What the clocks and counters show during one repetition. */
  datatype Sample = Sample(start: nat, stop: nat, before: seq<nat>, after: seq<nat>)

  /** What must be added to a 64-bit value to reach another, if need be around the end. */
  function Elapsed(from: nat, to: nat): (v: nat)
    ensures IsDifference(v, from, to)
    ensures from <= to < WORD64 ==> v == to - from
  {
    (to - from) % WORD64
  }

  predicate IsDifference(v: nat, from: nat, to: nat) {
    v < WORD64 && (from + v) % WORD64 == to % WORD64
  }

  /** What a repetition measures: the time, then the active counters. */
  function Values(s: Sample): seq<nat>
    requires |s.before| == |s.after|
  {
    [Elapsed(s.start, s.stop)] + seq(|s.before|, k requires 0 <= k < |s.before| => Elapsed(s.before[k], s.after[k]))
  }

  /** arch_pmu_begin. */
  method PmuBegin(data: array<nat>, at: nat, before: seq<nat>)
    requires at + |before| <= data.Length
    modifies data
    ensures data[..] == old(data[..at]) + before + old(data[at + |before|..])
  {
    for i := 0 to |before|
      invariant data[..] == old(data[..at]) + before[..i] + old(data[at + i..])
    {
      data[at + i] := before[i];
    }
    assert before[..|before|] == before;
  }

  /** arch_pmu_end. */
  method PmuEnd(data: array<nat>, at: nat, after: seq<nat>)
    requires at + |after| <= data.Length
    modifies data
    ensures forall x | 0 <= x < data.Length ::
              data[x] == if at <= x < at + |after| then Elapsed(old(data[x]), after[x - at]) else old(data[x])
    ensures forall k | 0 <= k < |after| :: IsDifference(data[at + k], old(data[at + k]), after[k])
  {
    for i := 0 to |after|
      invariant forall x | 0 <= x < data.Length ::
                  data[x] == if at <= x < at + i then Elapsed(old(data[x]), after[x - at]) else old(data[x])
    {
      data[at + i] := Elapsed(data[at + i], after[i]);
    }
  }

  /** The body of the repetition loop, on the row of results that starts at `at`. */
  method Repetition(data: array<nat>, at: nat, s: Sample)
    requires |s.before| == |s.after| && at + 1 + |s.before| <= data.Length
    modifies data
    ensures forall x | 0 <= x < data.Length ::
              data[x] == if at <= x < at + 1 + |s.before| then Values(s)[x - at] else old(data[x])
    ensures IsDifference(data[at], s.start, s.stop)
    ensures forall k | 0 <= k < |s.before| :: IsDifference(data[at + 1 + k], s.before[k], s.after[k])
  {
    PmuBegin(data, at + 1, s.before);
    PmuEnd(data, at + 1, s.after);
    data[at] := Elapsed(s.start, s.stop);
  }

  // ----- one worker, all workers ---------------------------------------------------------

  /** The measurements of all workers: thread, then repetition. */
  type Run = seq<seq<Sample>>

  predicate IsRun(l: Layout, run: Run) {
    |run| == l.threads && forall t | 0 <= t < l.threads :: IsRow(l, run[t])
  }

  /** Every repetition reads the same counters twice, and they fit the row. */
  predicate IsRow(l: Layout, row: seq<Sample>) {
    |row| == l.reps && forall r | 0 <= r < l.reps :: |row[r].before| == |row[r].after| < l.width
  }

  /** The measurement that a cell belongs to. */
  datatype Place = Place(thread: nat, rep: nat, counter: nat)

  function PlaceOf(l: Layout, x: nat): (p: Place)
    requires x < Cells(l)
    ensures InLayout(l, p.thread, p.rep, p.counter) && Cell(l, p.thread, p.rep, p.counter) == x
  {
    QuotientBelow(x, l.threads * l.reps, l.width);
    QuotientBelow(x / l.width, l.threads, l.reps);
    Place(x / l.width / l.reps, x / l.width % l.reps, x % l.width)
  }

  lemma PlaceOfCell(l: Layout, t: nat, r: nat, c: nat)
    requires InLayout(l, t, r, c)
    ensures Cell(l, t, r, c) < Cells(l) && PlaceOf(l, Cell(l, t, r, c)) == Place(t, r, c)
  {
    CellInRange(l, t, r, c);
    CellInverse(l, t, r, c);
  }

  /** What a place holds after its worker has run: counters that are not active keep
      whatever the allocation left there. */
  function Stored(run: Run, p: Place, was: nat): nat
    requires p.thread < |run| && p.rep < |run[p.thread]|
    requires |run[p.thread][p.rep].before| == |run[p.thread][p.rep].after|
  {
    var s := run[p.thread][p.rep];
    if p.counter <= |s.before| then Values(s)[p.counter] else was
  }

  /** Cell x when worker t has done progress[t] repetitions, for every t. */
  predicate CellIs(l: Layout, run: Run, progress: seq<nat>, x: nat, was: nat, now: nat)
    requires IsRun(l, run) && |progress| == l.threads && x < Cells(l)
  {
    var p := PlaceOf(l, x);
    now == if p.rep < progress[p.thread] then Stored(run, p, was) else was
  }

  /** All cells at that point. */
  predicate CellsAre(l: Layout, run: Run, progress: seq<nat>, orig: seq<nat>, data: seq<nat>)
    requires IsRun(l, run)
  {
    && |progress| == l.threads && |orig| == |data| == Cells(l)
    && forall x | 0 <= x < Cells(l) :: CellIs(l, run, progress, x, orig[x], data[x])
  }

  /** The cells that repetition r of worker t writes. */
  lemma RowCells(l: Layout, t: nat, r: nat, k: nat, x: nat)
    requires InLayout(l, t, r, k) && x < Cells(l)
    ensures Cell(l, t, r, 0) + k < Cells(l)
    ensures Cell(l, t, r, 0) <= x <= Cell(l, t, r, 0) + k <==>
            PlaceOf(l, x).thread == t && PlaceOf(l, x).rep == r && PlaceOf(l, x).counter <= k
    ensures Cell(l, t, r, 0) <= x <= Cell(l, t, r, 0) + k ==> PlaceOf(l, x).counter == x - Cell(l, t, r, 0)
  {
    CellInRange(l, t, r, k);
    if Cell(l, t, r, 0) <= x <= Cell(l, t, r, 0) + k {
      PlaceOfCell(l, t, r, x - Cell(l, t, r, 0));
    }
  }

  /** The next repetition of worker t, through the result pointer of its row. */
  method NextRepetition(data: array<nat>, l: Layout, t: nat, rep: nat, run: Run,
                        ghost progress: seq<nat>, ghost orig: seq<nat>)
    requires IsRun(l, run) && t < l.threads && Cells(l) <= WORD32
    requires CellsAre(l, run, progress, orig, data[..]) && rep == progress[t] < l.reps
    modifies data
    ensures CellsAre(l, run, progress[t := rep + 1], orig, data[..])
  {
    ghost var was := data[..];
    assert IsRow(l, run[t]);
    var s := run[t][rep];
    SameCell(l, t, rep, 0);
    CellInRange(l, t, rep, |s.before|);
    Repetition(data, RowOf(l, t) + OffsetOf(l, rep), s);
    forall x | 0 <= x < Cells(l)
      ensures CellIs(l, run, progress[t := rep + 1], x, orig[x], data[x])
    {
      RowCells(l, t, rep, |s.before|, x);
      assert CellIs(l, run, progress, x, orig[x], was[x]);
    }
  }

  /** The repetition loop of one worker. */
  method WorkerLoop(data: array<nat>, l: Layout, t: nat, run: Run, ghost progress: seq<nat>, ghost orig: seq<nat>)
    requires IsRun(l, run) && t < l.threads && Cells(l) <= WORD32
    requires CellsAre(l, run, progress, orig, data[..]) && progress[t] == 0
    modifies data
    ensures CellsAre(l, run, progress[t := l.reps], orig, data[..])
  {
    for rep := 0 to l.reps
      invariant CellsAre(l, run, progress[t := rep], orig, data[..])
    {
      NextRepetition(data, l, t, rep, run, progress[t := rep], orig);
    }
  }

  /** A schedule lets every worker do all its repetitions, in any interleaving. */
  predicate IsInterleaving(l: Layout, schedule: seq<nat>) {
    && (forall i | 0 <= i < |schedule| :: schedule[i] < l.threads)
    && (forall t | 0 <= t < l.threads :: multiset(schedule)[t] == l.reps)
  }

  /** Whatever the order of their repetitions, the workers together store exactly their
      own measurements: nothing is overwritten, nothing is lost. */
  method AllWorkers(data: array<nat>, l: Layout, run: Run, schedule: seq<nat>)
    requires IsRun(l, run) && data.Length == Cells(l) <= WORD32
    requires IsInterleaving(l, schedule)
    modifies data
    ensures forall x | 0 <= x < Cells(l) :: data[x] == Stored(run, PlaceOf(l, x), old(data[x]))
  {
    ghost var orig := data[..];
    var progress := seq(l.threads, _ => 0);
    for i := 0 to |schedule|
      invariant CellsAre(l, run, progress, orig, data[..])
      invariant forall t | 0 <= t < l.threads :: progress[t] == multiset(schedule[..i])[t]
    {
      var t := schedule[i];
      StepCounts(schedule, i);
      NextRepetition(data, l, t, progress[t], run, progress, orig);
      progress := progress[t := progress[t] + 1];
    }
    assert schedule[..|schedule|] == schedule;
    forall x | 0 <= x < Cells(l)
      ensures data[x] == Stored(run, PlaceOf(l, x), orig[x])
    {
      assert CellIs(l, run, progress, x, orig[x], data[x]);
    }
  }

  lemma StepCounts(schedule: seq<nat>, i: nat)
    requires i < |schedule|
    ensures multiset(schedule[..i + 1]) == multiset(schedule[..i]) + multiset{schedule[i]}
    ensures multiset(schedule[..i])[schedule[i]] < multiset(schedule)[schedule[i]]
  {
    assert schedule[..i + 1] == schedule[..i] + [schedule[i]];
    assert schedule == schedule[..i + 1] + schedule[i + 1..];
  }

  // ----- the printed table ----------------------------------------------------------------

  datatype Row = Row(cpu: int, values: seq<nat>)

  /** One block of output: the title line of a counter, if any, and a row per thread. */
  datatype Page = Page(title: seq<string>, rows: seq<Row>)

  /** hwloc_bitmap_next on a set given as an ascending sequence: the first member after
      cpu, or -1. */
  function NextCpu(cpus: seq<nat>, cpu: int): int {
    if cpus == [] then -1 else if cpus[0] > cpu then cpus[0] else NextCpu(cpus[1..], cpu)
  }

  predicate Ascending(s: seq<nat>) {
    forall i, j | 0 <= i < j < |s| :: s[i] < s[j]
  }

  /** Stepping through the set visits its members in ascending order. */
  lemma {:induction false} NextCpuIs(cpus: seq<nat>, k: nat, cpu: int)
    requires Ascending(cpus) && k < |cpus|
    requires cpu == if k == 0 then -1 else cpus[k - 1]
    ensures NextCpu(cpus, cpu) == cpus[k]
    decreases k
  {
    if k > 0 {
      SkipTo(cpus, k, cpu);
    }
  }

  lemma {:induction false} SkipTo(cpus: seq<nat>, k: nat, cpu: int)
    requires Ascending(cpus) && k < |cpus| && cpus[k] > cpu
    requires forall i | 0 <= i < k :: cpus[i] <= cpu
    ensures NextCpu(cpus, cpu) == cpus[k]
    decreases k
  {
    if k > 0 {
      SkipTo(cpus[1..], k - 1, cpu);
    }
  }

  /** What result_print has to show for a counter and a thread. */
  predicate RowIs(l: Layout, data: seq<nat>, cpus: seq<nat>, counter: nat, thread: nat, row: Row)
    requires |data| == Cells(l) && |cpus| == l.threads && counter < l.width && thread < l.threads
  {
    && row.cpu == cpus[thread]
    && |row.values| == l.reps
    && forall r | 0 <= r < l.reps :: CellInRangeOf(l, thread, r, counter) && row.values[r] == data[Cell(l, thread, r, counter)]
  }

  predicate CellInRangeOf(l: Layout, thread: nat, r: nat, counter: nat) {
    Cell(l, thread, r, counter) < Cells(l)
  }

  predicate PageIs(l: Layout, data: seq<nat>, cpus: seq<nat>, pmcs: seq<string>, counter: nat, page: Page)
    requires |data| == Cells(l) && |cpus| == l.threads && |pmcs| + 1 == l.width && counter < l.width
  {
    && page.title == (if counter > 0 then [pmcs[counter - 1]] else [])
    && |page.rows| == l.threads
    && forall t | 0 <= t < l.threads :: RowIs(l, data, cpus, counter, t, page.rows[t])
  }

  /** The innermost loop of result_print. */
  method PrintRow(data: array<nat>, l: Layout, cpus: seq<nat>, counter: nat, thread: nat, cpu: int) returns (row: Row)
    requires data.Length == Cells(l) <= WORD32 && |cpus| == l.threads
    requires counter < l.width && thread < l.threads && cpu == cpus[thread]
    ensures RowIs(l, data[..], cpus, counter, thread, row)
  {
    var values := [];
    for rep := 0 to l.reps
      invariant |values| == rep
      invariant forall r | 0 <= r < rep ::
                  CellInRangeOf(l, thread, r, counter) && values[r] == data[Cell(l, thread, r, counter)]
    {
      SameCell(l, thread, rep, counter);
      CellInRange(l, thread, rep, counter);
      values := values + [data[ReadIndex(l, thread, rep, counter)]];
    }
    return Row(cpu, values);
  }

  /** result_print, on a set of CPUs in ascending order; the output is returned. */
  method ResultPrint(data: array<nat>, l: Layout, cpus: seq<nat>, pmcs: seq<string>) returns (pages: seq<Page>)
    requires data.Length == Cells(l) <= WORD32 && |pmcs| + 1 == l.width
    requires Ascending(cpus) && |cpus| == l.threads
    ensures PagesAre(l, data[..], cpus, pmcs, pages)
  {
    pages := [];
    for counter := 0 to l.width
      invariant |pages| == counter
      invariant forall c | 0 <= c < counter :: PageIs(l, data[..], cpus, pmcs, c, pages[c])
    {
      var cpu := -1;
      var title := if counter > 0 && counter - 1 < |pmcs| then [pmcs[counter - 1]] else [];
      var rows := [];
      for thread := 0 to l.threads
        invariant |rows| == thread && cpu == if thread == 0 then -1 else cpus[thread - 1]
        invariant forall t | 0 <= t < thread :: RowIs(l, data[..], cpus, counter, t, rows[t])
      {
        NextCpuIs(cpus, thread, cpu);
        cpu := NextCpu(cpus, cpu);
        var row := PrintRow(data, l, cpus, counter, thread, cpu);
        rows := rows + [row];
      }
      pages := pages + [Page(title, rows)];
    }
  }

  // ----- the labels of the rows ---------------------------------------------------------------

  lemma {:induction false} SortedUnique(a: seq<nat>, b: seq<nat>)
    requires Ascending(a) && Ascending(b)
    requires forall x :: x in a <==> x in b
    ensures a == b
    decreases |a|
  {
    if a == [] {
      assert forall i | 0 <= i < |b| :: b[i] in b;
    } else {
      assert a[0] in b && b != [];
      assert b[0] in a;
      assert a[0] == b[0];
      forall x ensures x in a[1..] <==> x in b[1..] {
        assert x in a <==> x == a[0] || x in a[1..];
        assert x in b <==> x == b[0] || x in b[1..];
        assert a[0] !in a[1..] && b[0] !in b[1..];
      }
      SortedUnique(a[1..], b[1..]);
    }
  }

  /** Workers are created in the order `logical` of the CPUs, rows are labelled in ascending
      order: all labels are right exactly when the logical order is ascending. */
  lemma LabelsRightExactly(logical: seq<nat>, cpus: seq<nat>)
    requires Ascending(cpus) && |logical| == |cpus|
    requires forall x :: x in logical <==> x in cpus
    ensures (forall t | 0 <= t < |cpus| :: cpus[t] == logical[t]) <==> Ascending(logical)
  {
    if Ascending(logical) {
      SortedUnique(logical, cpus);
    }
  }

  /** All pages of the table. */
  predicate PagesAre(l: Layout, data: seq<nat>, cpus: seq<nat>, pmcs: seq<string>, pages: seq<Page>)
    requires |data| == Cells(l) && |cpus| == l.threads && |pmcs| + 1 == l.width
  {
    |pages| == l.width && forall c | 0 <= c < l.width :: PageIs(l, data, cpus, pmcs, c, pages[c])
  }

  /** Row t of every page carries the CPU of worker t, whose measurements stand in it. */
  predicate LabelsRight(pages: seq<Page>, logical: seq<nat>) {
    forall c, t | 0 <= c < |pages| && 0 <= t < |logical| :: t < |pages[c].rows| && pages[c].rows[t].cpu == logical[t]
  }

  /** The page of every active counter carries the name of the event that it counts. */
  predicate TitlesRight(pages: seq<Page>, pmcs: seq<string>, ok: seq<bool>)
    requires |ok| == |pmcs|
  {
    forall k | 0 <= k < |Resolved(ok)| :: TitleRight(pages, pmcs, ok, k)
  }

  predicate TitleRight(pages: seq<Page>, pmcs: seq<string>, ok: seq<bool>, k: nat)
    requires |ok| == |pmcs| && k < |Resolved(ok)|
  {
    && k + 1 < |pages| && Resolved(ok)[k] < |pmcs|
    && pages[k + 1].title == [pmcs[Resolved(ok)[k]]]
  }

  predicate DistinctNames(pmcs: seq<string>) {
    forall i, j | 0 <= i < j < |pmcs| :: pmcs[i] != pmcs[j]
  }

  lemma LabelsOnPages(l: Layout, data: seq<nat>, cpus: seq<nat>, pmcs: seq<string>, pages: seq<Page>, logical: seq<nat>)
    requires |data| == Cells(l) && |cpus| == l.threads && |pmcs| + 1 == l.width
    requires PagesAre(l, data, cpus, pmcs, pages)
    requires Ascending(cpus) && |logical| == |cpus| && forall x :: x in logical <==> x in cpus
    ensures LabelsRight(pages, logical) <==> Ascending(logical)
  {
    LabelsRightExactly(logical, cpus);
    forall c, t | 0 <= c < |pages| && 0 <= t < |logical|
      ensures t < |pages[c].rows| && pages[c].rows[t].cpu == cpus[t]
    {
      assert PageIs(l, data, cpus, pmcs, c, pages[c]) && RowIs(l, data, cpus, c, t, pages[c].rows[t]);
    }
    if LabelsRight(pages, logical) {
      forall t | 0 <= t < |cpus| ensures cpus[t] == logical[t] {
        assert pages[0].rows[t].cpu == cpus[t];
      }
    }
  }

  lemma TitleOnPage(l: Layout, data: seq<nat>, cpus: seq<nat>, pmcs: seq<string>, pages: seq<Page>, ok: seq<bool>, k: nat)
    requires |data| == Cells(l) && |cpus| == l.threads && |pmcs| + 1 == l.width
    requires PagesAre(l, data, cpus, pmcs, pages)
    requires |ok| == |pmcs| && k < |Resolved(ok)|
    ensures Resolved(ok)[k] == k ==> TitleRight(pages, pmcs, ok, k)
    ensures DistinctNames(pmcs) && TitleRight(pages, pmcs, ok, k) ==> Resolved(ok)[k] == k
  {
    ResolvedExact(ok);
    assert PageIs(l, data, cpus, pmcs, k + 1, pages[k + 1]);
    assert pages[k + 1].title == [pmcs[k]];
    assert [pmcs[k]] == [pmcs[Resolved(ok)[k]]] ==> pmcs[k] == pmcs[Resolved(ok)[k]] by {
      assert [pmcs[k]][0] == pmcs[k];
    }
  }

  lemma TitlesOnPages(l: Layout, data: seq<nat>, cpus: seq<nat>, pmcs: seq<string>, pages: seq<Page>, ok: seq<bool>)
    requires |data| == Cells(l) && |cpus| == l.threads && |pmcs| + 1 == l.width
    requires PagesAre(l, data, cpus, pmcs, pages) && |ok| == |pmcs|
    ensures NoneAfterFailure(ok) ==> TitlesRight(pages, pmcs, ok)
    ensures DistinctNames(pmcs) && TitlesRight(pages, pmcs, ok) ==> NoneAfterFailure(ok)
  {
    TitlesMatchExactly(ok);
    forall k | 0 <= k < |Resolved(ok)|
      ensures Resolved(ok)[k] == k ==> TitleRight(pages, pmcs, ok, k)
      ensures DistinctNames(pmcs) && TitleRight(pages, pmcs, ok, k) ==> Resolved(ok)[k] == k
    {
      TitleOnPage(l, data, cpus, pmcs, pages, ok, k);
    }
  }

  // ----- measuring and printing -----------------------------------------------------------------

  /** v is the time of repetition s for counter 0, and the increase of active counter c - 1
      for the others. */
  predicate Shows(s: Sample, c: nat, v: nat)
    requires |s.before| == |s.after|
  {
    && (c == 0 ==>
          && IsDifference(v, s.start, s.stop)
          && (s.start <= s.stop < WORD64 ==> v == s.stop - s.start))
    && (0 < c <= |s.before| ==>
          && IsDifference(v, s.before[c - 1], s.after[c - 1])
          && (s.before[c - 1] <= s.after[c - 1] < WORD64 ==> v == s.after[c - 1] - s.before[c - 1]))
  }

  /** The table shows repetition r of worker t at counter c. */
  predicate ShowsAt(run: Run, row: Row, c: nat, t: nat, r: nat) {
    && r < |row.values| && t < |run| && r < |run[t]|
    && |run[t][r].before| == |run[t][r].after|
    && Shows(run[t][r], c, row.values[r])
  }

  lemma ValuesShow(s: Sample, c: nat)
    requires |s.before| == |s.after| && c <= |s.before|
    ensures Shows(s, c, Values(s)[c])
  {
  }

  /** ok[t] says which events resolve for worker t; those are the counters it reads. */
  predicate ReadsResolved(l: Layout, run: Run, ok: seq<seq<bool>>, events: nat)
    requires IsRun(l, run)
  {
    && |ok| == l.threads
    && (forall t | 0 <= t < l.threads :: |ok[t]| == events)
    && forall t, r | 0 <= t < l.threads && 0 <= r < l.reps :: IsRow(l, run[t]) && |run[t][r].before| == |Resolved(ok[t])|
  }

  /** The table shows what was measured. At thread t and repetition r stands, for counter 0,
      the time from the start to the stop of that repetition of worker t, and for the active
      counter c - 1 what the second reading is ahead of the first. The
      rows carry their workers' CPUs exactly when the workers were created in ascending order,
      and the pages carry the names of the events a worker counted exactly when none of its
      events resolves after one that does not. */
  method MeasureAndPrint(data: array<nat>, l: Layout, run: Run, schedule: seq<nat>, cpus: seq<nat>, pmcs: seq<string>,
                         ghost ok: seq<seq<bool>>, ghost logical: seq<nat>)
    returns (pages: seq<Page>)
    requires IsRun(l, run) && data.Length == Cells(l) <= WORD32 && IsInterleaving(l, schedule)
    requires Ascending(cpus) && |cpus| == l.threads && |pmcs| + 1 == l.width
    requires ReadsResolved(l, run, ok, |pmcs|)
    requires |logical| == |cpus| && forall x :: x in logical <==> x in cpus
    modifies data
    ensures |pages| == l.width && forall c | 0 <= c < l.width :: |pages[c].rows| == l.threads
    ensures forall c, t, r | 0 <= c < l.width && 0 <= t < l.threads && 0 <= r < l.reps ::
              ShowsAt(run, pages[c].rows[t], c, t, r)
    ensures LabelsRight(pages, logical) <==> Ascending(logical)
    ensures forall t | 0 <= t < l.threads :: NoneAfterFailure(ok[t]) ==> TitlesRight(pages, pmcs, ok[t])
    ensures DistinctNames(pmcs) ==>
              forall t | 0 <= t < l.threads :: TitlesRight(pages, pmcs, ok[t]) ==> NoneAfterFailure(ok[t])
  {
    AllWorkers(data, l, run, schedule);
    pages := ResultPrint(data, l, cpus, pmcs);
    forall c, t, r | 0 <= c < l.width && 0 <= t < l.threads && 0 <= r < l.reps
      ensures ShowsAt(run, pages[c].rows[t], c, t, r)
    {
      assert PageIs(l, data[..], cpus, pmcs, c, pages[c]) && RowIs(l, data[..], cpus, c, t, pages[c].rows[t]);
      assert CellInRangeOf(l, t, r, c) && IsRow(l, run[t]);
      PlaceOfCell(l, t, r, c);
      if c <= |run[t][r].before| {
        ValuesShow(run[t][r], c);
      }
    }
    LabelsOnPages(l, data[..], cpus, pmcs, pages, logical);
    forall t | 0 <= t < l.threads
      ensures NoneAfterFailure(ok[t]) ==> TitlesRight(pages, pmcs, ok[t])
      ensures DistinctNames(pmcs) && TitlesRight(pages, pmcs, ok[t]) ==> NoneAfterFailure(ok[t])
    {
      TitlesOnPages(l, data[..], cpus, pmcs, pages, ok[t]);
    }
  }
}
