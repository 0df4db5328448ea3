/** The flat result array: workers write it, result_print reads it. Index arithmetic is
    on 32-bit unsigned numbers, as in the program. */
module Layouts {
  import Division

  const WORD32: nat := 0x1_0000_0000

  /** width is the number of PMU counters plus one, for the time. */
  datatype Layout = Layout(threads: nat, reps: nat, width: nat)

  function Cells(l: Layout): nat {
    l.threads * l.reps * l.width
  }

  predicate InLayout(l: Layout, thread: nat, rep: nat, counter: nat) {
    thread < l.threads && rep < l.reps && counter < l.width
  }

  /** The cell of a measurement. */
  function Cell(l: Layout, thread: nat, rep: nat, counter: nat): nat {
    (thread * l.reps + rep) * l.width + counter
  }

  lemma Below(a: nat, b: nat, n: nat, m: nat)
    requires a < n && b < m
    ensures a * m + b < n * m && a * m + m <= n * m
  {
    Division.Multiples(n - a, m);
    assert (n - a) * m == n * m - a * m;
  }

  lemma CellInRange(l: Layout, thread: nat, rep: nat, counter: nat)
    requires InLayout(l, thread, rep, counter)
    ensures Cell(l, thread, rep, counter) < Cells(l)
    ensures thread * l.reps + rep < l.threads * l.reps
  {
    Below(thread, rep, l.threads, l.reps);
    Below(thread * l.reps + rep, counter, l.threads * l.reps, l.width);
  }

  /** The cell determines the measurement. */
  lemma CellInverse(l: Layout, thread: nat, rep: nat, counter: nat)
    requires InLayout(l, thread, rep, counter)
    ensures var x := Cell(l, thread, rep, counter);
            x % l.width == counter && x / l.width % l.reps == rep && x / l.width / l.reps == thread
  {
    Division.Quotient(Cell(l, thread, rep, counter), l.width, thread * l.reps + rep, counter);
    Division.Quotient(thread * l.reps + rep, l.reps, thread, rep);
  }

  /** Different measurements have different cells, whichever threads make them. */
  lemma CellInjective(l: Layout, t1: nat, r1: nat, c1: nat, t2: nat, r2: nat, c2: nat)
    requires InLayout(l, t1, r1, c1) && InLayout(l, t2, r2, c2)
    requires Cell(l, t1, r1, c1) == Cell(l, t2, r2, c2)
    ensures t1 == t2 && r1 == r2 && c1 == c2
  {
    CellInverse(l, t1, r1, c1);
    CellInverse(l, t2, r2, c2);
  }

  lemma QuotientBelow(x: nat, n: nat, m: nat)
    requires x < n * m
    ensures m > 0 && x / m < n && x == x / m * m + x % m
  {
    Division.Multiples(x / m - n, m);
    assert (x / m - n) * m == x / m * m - n * m;
  }

  /** Every allocated cell belongs to a measurement. */
  lemma EveryCell(l: Layout, x: nat) returns (thread: nat, rep: nat, counter: nat)
    requires x < Cells(l)
    ensures InLayout(l, thread, rep, counter) && Cell(l, thread, rep, counter) == x
  {
    QuotientBelow(x, l.threads * l.reps, l.width);
    QuotientBelow(x / l.width, l.threads, l.reps);
    thread, rep, counter := x / l.width / l.reps, x / l.width % l.reps, x % l.width;
  }

  // ----- the indices as computed -----------------------------------------------------

  function Mul32(a: nat, b: nat): nat { a * b % WORD32 }

  function Add32(a: nat, b: nat): nat { (a + b) % WORD32 }

  /** The row that run_in_parallel gives to a worker. */
  function RowOf(l: Layout, thread: nat): nat {
    Mul32(Mul32(thread, l.reps), l.width)
  }

  /** The offset that the worker adds for a repetition. */
  function OffsetOf(l: Layout, rep: nat): nat {
    Mul32(l.width, rep)
  }

  /** Where the worker stores a value: the additions are on pointers and do not wrap. */
  function WriteIndex(l: Layout, thread: nat, rep: nat, counter: nat): nat {
    RowOf(l, thread) + OffsetOf(l, rep) + counter
  }

  /** Where result_print reads it: all 32-bit. */
  function ReadIndex(l: Layout, thread: nat, rep: nat, counter: nat): nat {
    Add32(Add32(Mul32(Mul32(thread, l.reps), l.width), Mul32(l.width, rep)), counter)
  }

  lemma Mul32Twice(a: nat, b: nat, c: nat)
    ensures Mul32(Mul32(a, b), c) == a * b * c % WORD32
  {
    var p := a * b;
    var q, r := p / WORD32, p % WORD32;
    assert p * c == q * c * WORD32 + r * c by {
      assert (q * WORD32 + r) * c == q * WORD32 * c + r * c;
    }
    Wraps(r * c, q * c);
  }

  lemma Wraps(x: nat, k: nat)
    ensures (x + k * WORD32) % WORD32 == x % WORD32
  {
  }

  lemma Add32Three(x: nat, y: nat, z: nat)
    ensures Add32(Add32(x % WORD32, y % WORD32), z) == (x + y + z) % WORD32
  {
    AddWraps(x, y % WORD32);
    AddWraps(y, x);
    AddWraps(x + y, z);
  }

  lemma AddWraps(x: nat, y: nat)
    ensures (x % WORD32 + y) % WORD32 == (x + y) % WORD32
  {
  }

  lemma CellSum(l: Layout, thread: nat, rep: nat, counter: nat)
    ensures Cell(l, thread, rep, counter) == thread * l.reps * l.width + l.width * rep + counter
  {
    assert (thread * l.reps + rep) * l.width == thread * l.reps * l.width + rep * l.width;
  }

  /** The reader wraps the cell number to 32 bits. */
  lemma ReaderWraps(l: Layout, thread: nat, rep: nat, counter: nat)
    ensures ReadIndex(l, thread, rep, counter) == Cell(l, thread, rep, counter) % WORD32
  {
    CellSum(l, thread, rep, counter);
    Mul32Twice(thread, l.reps, l.width);
    Add32Three(thread * l.reps * l.width, l.width * rep, counter);
  }

  lemma Small(x: nat)
    requires x < WORD32
    ensures x % WORD32 == x
  {
  }

  lemma RowExact(l: Layout, thread: nat)
    ensures thread * l.reps * l.width < WORD32 ==> RowOf(l, thread) == thread * l.reps * l.width
  {
    Mul32Twice(thread, l.reps, l.width);
    if thread * l.reps * l.width < WORD32 {
      Small(thread * l.reps * l.width);
    }
  }

  lemma OffsetExact(l: Layout, rep: nat)
    ensures l.width * rep < WORD32 ==> OffsetOf(l, rep) == l.width * rep
  {
  }

  /** With at most 2^32 cells writer and reader agree on the cell of every measurement. */
  lemma SameCell(l: Layout, thread: nat, rep: nat, counter: nat)
    requires InLayout(l, thread, rep, counter) && Cells(l) <= WORD32
    ensures WriteIndex(l, thread, rep, counter) == ReadIndex(l, thread, rep, counter) == Cell(l, thread, rep, counter)
  {
    CellInRange(l, thread, rep, counter);
    ReaderWraps(l, thread, rep, counter);
    CellSum(l, thread, rep, counter);
    RowExact(l, thread);
    OffsetExact(l, rep);
    Small(Cell(l, thread, rep, counter));
  }

  /** The reader tells all measurements apart. */
  ghost predicate ReaderInjective(l: Layout) {
    forall t1: nat, r1: nat, c1: nat, t2: nat, r2: nat, c2: nat ::
      (InLayout(l, t1, r1, c1) && InLayout(l, t2, r2, c2) && ReadIndex(l, t1, r1, c1) == ReadIndex(l, t2, r2, c2))
      ==> (t1 == t2 && r1 == r2 && c1 == c2)
  }

  /** It does so exactly when there are no more than 2^32 cells. */
  lemma ReaderInjectiveExactly(l: Layout)
    ensures ReaderInjective(l) <==> Cells(l) <= WORD32
  {
    if Cells(l) <= WORD32 {
      forall t1: nat, r1: nat, c1: nat, t2: nat, r2: nat, c2: nat
        | InLayout(l, t1, r1, c1) && InLayout(l, t2, r2, c2) && ReadIndex(l, t1, r1, c1) == ReadIndex(l, t2, r2, c2)
        ensures t1 == t2 && r1 == r2 && c1 == c2
      {
        SameCell(l, t1, r1, c1);
        SameCell(l, t2, r2, c2);
        CellInjective(l, t1, r1, c1, t2, r2, c2);
      }
    } else {
      var t1, r1, c1 := EveryCell(l, 0);
      var t2, r2, c2 := EveryCell(l, WORD32);
      ReaderWraps(l, t1, r1, c1);
      ReaderWraps(l, t2, r2, c2);
      assert ReadIndex(l, t1, r1, c1) == ReadIndex(l, t2, r2, c2);
    }
  }
}
