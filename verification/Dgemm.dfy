/** The matrix multiplication of the DGEMM benchmark on exact reals: N x N matrices in
    row-major arrays, updated in place. */
module Dgemm {
  import Division
  import opened Powers

  /** 1 + b + ... + b^(n-1). */
  function Geometric(b: real, n: nat): real {
    if n == 0 then 0.0 else Geometric(b, n - 1) + Power(b, n - 1)
  }

  lemma InRange(n: nat, i: nat, j: nat)
    requires i < n && j < n
    ensures i * n + j < n * n && (i + 1) * n == i * n + n <= n * n
  {
    Division.Multiples(n - i, n);
    assert (n - i) * n == n * n - i * n;
  }

  /** The place of entry (i, j). */
  function At(n: nat, i: nat, j: nat): (x: nat)
    requires i < n && j < n
    ensures x < n * n
  {
    InRange(n, i, j);
    i * n + j
  }

  /** The first k terms of entry (i, j) of the matrix product. */
  function Dot(a: seq<real>, b: seq<real>, n: nat, i: nat, j: nat, k: nat): real
    requires |a| == |b| == n * n && i < n && j < n && k <= n
  {
    if k == 0 then 0.0
    else
      Dot(a, b, n, i, j, k - 1) + a[At(n, i, k - 1)] * b[At(n, k - 1, j)]
  }

  /** Entry x of the product, counted through the rows. */
  function Product(a: seq<real>, b: seq<real>, n: nat, x: nat): real
    requires |a| == |b| == n * n && x < n * n
  {
    RowAndColumn(n, x);
    Dot(a, b, n, x / n, x % n, n)
  }

  /** One update of an entry. */
  function Mix(alpha: real, p: real, beta: real, c: real): real {
    alpha * p + beta * c
  }

  /** beta^r * c + alpha * (1 + beta + ... + beta^(r-1)) * p. */
  function Closed(alpha: real, beta: real, r: nat, p: real, c: real): real {
    Power(beta, r) * c + alpha * Geometric(beta, r) * p
  }

  lemma RowAndColumn(n: nat, x: nat)
    requires x < n * n
    ensures n > 0 && x / n < n && x % n < n && x == x / n * n + x % n
  {
    Division.Multiples(x / n - n, n);
    Distribute(x / n, n, n);
  }

  lemma Distribute(a: int, b: int, c: int)
    ensures (a - b) * c == a * c - b * c
  {
  }

  lemma {:induction false} GeometricStep(b: real, n: nat)
    ensures Geometric(b, n + 1) == 1.0 + b * Geometric(b, n)
  {
    if n > 0 {
      GeometricStep(b, n - 1);
      assert b * (Geometric(b, n - 1) + Power(b, n - 1)) == b * Geometric(b, n - 1) + Power(b, n - 1) * b;
    }
  }

  /** The sum of the geometric series. */
  lemma {:induction false} GeometricSum(b: real, n: nat)
    ensures (b - 1.0) * Geometric(b, n) == Power(b, n) - 1.0
  {
    if n > 0 {
      GeometricSum(b, n - 1);
      assert (b - 1.0) * (Geometric(b, n - 1) + Power(b, n - 1)) ==
             (b - 1.0) * Geometric(b, n - 1) + b * Power(b, n - 1) - Power(b, n - 1);
    }
  }

  /** No round changes nothing, and one more round of the outer loop is one more update. */
  lemma ClosedStep(alpha: real, beta: real, r: nat, p: real, c: real)
    ensures Closed(alpha, beta, 0, p, c) == c
    ensures Closed(alpha, beta, r + 1, p, c) == alpha * p + beta * Closed(alpha, beta, r, p, c)
  {
    var q, g := Power(beta, r), Geometric(beta, r);
    GeometricStep(beta, r);
    assert beta * (q * c + alpha * g * p) == (q * beta) * c + alpha * (beta * g) * p;
    assert alpha * (1.0 + beta * g) * p == alpha * p + alpha * (beta * g) * p;
  }

  lemma ProductAt(a: seq<real>, b: seq<real>, n: nat, i: nat, j: nat)
    requires |a| == |b| == n * n && i < n && j < n
    ensures Product(a, b, n, At(n, i, j)) == Dot(a, b, n, i, j, n)
  {
    hide Dot, At;
    PlaceAt(n, i, j);
  }

  lemma PlaceAt(n: nat, i: nat, j: nat)
    requires i < n && j < n
    ensures At(n, i, j) / n == i && At(n, i, j) % n == j
  {
    Division.Quotient(At(n, i, j), n, i, j);
  }

  lemma DotNext(a: seq<real>, b: seq<real>, n: nat, i: nat, j: nat, k: nat)
    requires |a| == |b| == n * n && i < n && j < n && k < n
    ensures Dot(a, b, n, i, j, 0) == 0.0
    ensures Dot(a, b, n, i, j, k + 1) == Dot(a, b, n, i, j, k) + a[At(n, i, k)] * b[At(n, k, j)]
  {
  }

  /** The innermost loop: one entry of A * B. */
  method Entry(A: array<real>, B: array<real>, n: nat, i: nat, j: nat) returns (sum: real)
    requires A.Length == B.Length == n * n && i < n && j < n
    ensures sum == Dot(A[..], B[..], n, i, j, n)
  {
    hide Dot, At;
    sum := 0.0;
    DotNext(A[..], B[..], n, i, j, 0);
    for k := 0 to n
      invariant sum == Dot(A[..], B[..], n, i, j, k)
    {
      DotNext(A[..], B[..], n, i, j, k);
      sum := sum + A[At(n, i, k)] * B[At(n, k, j)];
    }
  }

  /** The matrix after one round. */
  ghost function NextMatrix(a: seq<real>, b: seq<real>, c: seq<real>, n: nat, alpha: real, beta: real): (r: seq<real>)
    requires |a| == |b| == |c| == n * n
    ensures |r| == n * n
  {
    seq(n * n, x requires 0 <= x < n * n => Mix(alpha, Product(a, b, n, x), beta, c[x]))
  }

  /** Entry x after one round. */
  lemma NextEntry(a: seq<real>, b: seq<real>, c: seq<real>, n: nat, alpha: real, beta: real, x: nat)
    requires |a| == |b| == |c| == n * n && x < n * n
    ensures NextMatrix(a, b, c, n, alpha, beta)[x] == alpha * Product(a, b, n, x) + beta * c[x]
  {
  }

  /** The first x entries of c have been replaced by those of next. */
  predicate ReplacedUpTo<T(==)>(s: seq<T>, next: seq<T>, c: seq<T>, x: nat) {
    x <= |next| == |c| && s == next[..x] + c[x..]
  }

  lemma Overwrite<T>(s: seq<T>, next: seq<T>, c: seq<T>, x: nat)
    requires x < |next| == |c| && ReplacedUpTo(s, next, c, x)
    ensures |s| == |c| && s[x] == c[x] && ReplacedUpTo(s[x := next[x]], next, c, x + 1)
  {
  }

  lemma AllReplaced<T>(s: seq<T>, next: seq<T>, c: seq<T>)
    ensures |next| == |c| ==> ReplacedUpTo(c, next, c, 0)
    ensures |next| == |c| && ReplacedUpTo(s, next, c, |c|) ==> s == next
  {
  }

  /** The body of the column loop. */
  method SetEntry(A: array<real>, B: array<real>, C: array<real>, n: nat, i: nat, j: nat, alpha: real, beta: real,
                  ghost next: seq<real>)
    requires A.Length == B.Length == C.Length == |next| == n * n
    requires C != A && C != B && i < n && j < n
    requires next[At(n, i, j)] == Mix(alpha, Product(A[..], B[..], n, At(n, i, j)), beta, C[At(n, i, j)])
    modifies C
    ensures C[..] == old(C[..])[At(n, i, j) := next[At(n, i, j)]]
  {
    var sum := Entry(A, B, n, i, j);
    ProductAt(A[..], B[..], n, i, j);
    C[At(n, i, j)] := Mix(alpha, sum, beta, C[At(n, i, j)]);
  }

  /** Row i of an n x n matrix in an array of the given size starts at `start`. */
  predicate StartsAt(n: nat, size: nat, i: nat, start: nat) {
    size == n * n && start == i * n && start <= size
  }

  lemma NextRow(n: nat, size: nat, i: nat, start: nat)
    requires StartsAt(n, size, i, start)
    ensures i < n ==> start + n <= size && StartsAt(n, size, i + 1, start + n)
    ensures i == n ==> start == size
  {
    if i < n {
      InRange(n, i, 0);
    }
  }

  /** What one round has to make of c. */
  ghost predicate IsNext(a: seq<real>, b: seq<real>, c: seq<real>, next: seq<real>, n: nat, alpha: real, beta: real) {
    |a| == |b| == |c| == |next| == n * n && next == NextMatrix(a, b, c, n, alpha, beta)
  }

  /** The loop over the columns of one row. */
  method Row(A: array<real>, B: array<real>, C: array<real>, n: nat, i: nat, alpha: real, beta: real,
             ghost c: seq<real>, ghost next: seq<real>, ghost start: nat)
    requires C != A && C != B && i < n && StartsAt(n, |c|, i, start) && start + n <= |c|
    requires IsNext(A[..], B[..], c, next, n, alpha, beta) && ReplacedUpTo(C[..], next, c, start)
    modifies C
    ensures ReplacedUpTo(C[..], next, c, start + n)
  {
    ghost var a, b := A[..], B[..];
    for j := 0 to n
      invariant A[..] == a && B[..] == b
      invariant |C[..]| == |c| && ReplacedUpTo(C[..], next, c, start + j)
    {
      Overwrite(C[..], next, c, At(n, i, j));
      SetEntry(A, B, C, n, i, j, alpha, beta, next);
    }
  }

  /** The loop over the rows of C. */
  method Rows(A: array<real>, B: array<real>, C: array<real>, n: nat, alpha: real, beta: real,
              ghost c: seq<real>, ghost next: seq<real>)
    requires C != A && C != B && StartsAt(n, |c|, 0, 0)
    requires IsNext(A[..], B[..], c, next, n, alpha, beta) && ReplacedUpTo(C[..], next, c, 0)
    modifies C
    ensures ReplacedUpTo(C[..], next, c, |c|)
  {
    hide *;
    ghost var a, b := A[..], B[..];
    ghost var start: nat := 0;
    for i := 0 to n
      invariant A[..] == a && B[..] == b
      invariant StartsAt(n, |c|, i, start) && ReplacedUpTo(C[..], next, c, start)
    {
      NextRow(n, |c|, i, start);
      Row(A, B, C, n, i, alpha, beta, c, next, start);
      start := start + n;
    }
    NextRow(n, |c|, n, start);
  }

  /** One round: every entry of C, from its own old value. */
  method Round(A: array<real>, B: array<real>, C: array<real>, n: nat, alpha: real, beta: real)
    requires A.Length == B.Length == C.Length == n * n
    requires C != A && C != B
    modifies C
    ensures C[..] == NextMatrix(A[..], B[..], old(C[..]), n, alpha, beta)
  {
    ghost var c := C[..];
    ghost var next := NextMatrix(A[..], B[..], c, n, alpha, beta);
    AllReplaced(c, next, c);
    assert StartsAt(n, |c|, 0, 0);
    Rows(A, B, C, n, alpha, beta, c, next);
    AllReplaced(C[..], next, c);
  }

  /** do_dgemm, the loops of the plain C build. */
  method DoDgemm(A: array<real>, B: array<real>, C: array<real>, n: nat, alpha: real, beta: real, repeats: int)
    requires A.Length == B.Length == C.Length == n * n
    requires C != A && C != B
    modifies C
    ensures var r := if repeats < 0 then 0 else repeats;
            forall x | 0 <= x < n * n ::
              && C[x] == Closed(alpha, beta, r, Product(A[..], B[..], n, x), old(C[x]))
              && C[x] == Power(beta, r) * old(C[x]) + alpha * Geometric(beta, r) * Product(A[..], B[..], n, x)
  {
    ghost var a, b, c0 := A[..], B[..], C[..];
    var r := 0;
    while r < repeats
      invariant 0 <= r && (r <= repeats || r == 0)
      invariant forall x | 0 <= x < n * n :: C[x] == Closed(alpha, beta, r, Product(a, b, n, x), c0[x])
    {
      ghost var c := C[..];
      Round(A, B, C, n, alpha, beta);
      Advance(a, b, c0, c, n, alpha, beta, r);
      r := r + 1;
    }
  }

  lemma Advance(a: seq<real>, b: seq<real>, c0: seq<real>, c: seq<real>, n: nat, alpha: real, beta: real, r: nat)
    requires |a| == |b| == |c0| == |c| == n * n
    requires forall x | 0 <= x < n * n :: c[x] == Closed(alpha, beta, r, Product(a, b, n, x), c0[x])
    ensures var next := NextMatrix(a, b, c, n, alpha, beta);
            forall x | 0 <= x < n * n :: next[x] == Closed(alpha, beta, r + 1, Product(a, b, n, x), c0[x])
  {
    hide NextMatrix, Product, Closed;
    forall x | 0 <= x < n * n
      ensures NextMatrix(a, b, c, n, alpha, beta)[x] == Closed(alpha, beta, r + 1, Product(a, b, n, x), c0[x])
    {
      NextEntry(a, b, c, n, alpha, beta, x);
      ClosedStep(alpha, beta, r, Product(a, b, n, x), c0[x]);
    }
  }

  // ----- what a matrix product is --------------------------------------------------------

  /** v stands in row i and column j of a, in row-major order. */
  predicate EntryIs(a: seq<real>, n: nat, i: nat, j: nat, v: real) {
    i * n + j < |a| && a[i * n + j] == v
  }

  /** All of row i of a is zero but entry k. */
  predicate RowIsOne(a: seq<real>, n: nat, i: nat, k: nat) {
    forall m | 0 <= m < n && m != k :: EntryIs(a, n, i, m, 0.0)
  }

  /** All of column j of b is zero but entry k. */
  predicate ColumnIsOne(b: seq<real>, n: nat, j: nat, k: nat) {
    forall m | 0 <= m < n && m != k :: EntryIs(b, n, m, j, 0.0)
  }

  lemma {:induction false} OneTerm(a: seq<real>, b: seq<real>, n: nat, i: nat, j: nat, k: nat, m: nat)
    requires |a| == |b| == n * n && i < n && j < n && k < n && m <= n
    requires RowIsOne(a, n, i, k) || ColumnIsOne(b, n, j, k)
    ensures Dot(a, b, n, i, j, m) == if k < m then a[At(n, i, k)] * b[At(n, k, j)] else 0.0
  {
    if m > 0 {
      OneTerm(a, b, n, i, j, k, m - 1);
      if m - 1 != k {
        assert EntryIs(a, n, i, m - 1, 0.0) || EntryIs(b, n, m - 1, j, 0.0);
      }
    }
  }

  /** p stands in row i and column j of the product. */
  predicate ProductIs(a: seq<real>, b: seq<real>, n: nat, i: nat, j: nat, p: real)
    requires |a| == |b| == n * n
  {
    i * n + j < n * n && Product(a, b, n, i * n + j) == p
  }

  lemma DotIsProduct(a: seq<real>, b: seq<real>, n: nat, i: nat, j: nat)
    requires |a| == |b| == n * n && i < n && j < n
    ensures ProductIs(a, b, n, i, j, Dot(a, b, n, i, j, n))
  {
    hide Product, Dot;
    assert At(n, i, j) == i * n + j;
    ProductAt(a, b, n, i, j);
  }

  /** A row or a column with one entry picks one term of the product. */
  lemma ProductOfOne(a: seq<real>, b: seq<real>, n: nat, i: nat, j: nat, k: nat, u: real, v: real)
    requires |a| == |b| == n * n && i < n && j < n && k < n
    requires RowIsOne(a, n, i, k) || ColumnIsOne(b, n, j, k)
    requires EntryIs(a, n, i, k, u) && EntryIs(b, n, k, j, v)
    ensures ProductIs(a, b, n, i, j, u * v)
  {
    hide Product, Dot;
    DotIsProduct(a, b, n, i, j);
    OneTerm(a, b, n, i, j, k, n);
    assert At(n, i, k) == i * n + k && At(n, k, j) == k * n + j;
  }

  predicate EntryIsSum(a: seq<real>, x: seq<real>, y: seq<real>, n: nat, i: nat, j: nat)
    requires |a| == |x| == |y|
  {
    i * n + j < |a| && a[i * n + j] == x[i * n + j] + y[i * n + j]
  }

  /** Row i of a is the sum of the rows i of x and y. */
  predicate RowIsSum(a: seq<real>, x: seq<real>, y: seq<real>, n: nat, i: nat)
    requires |a| == |x| == |y|
  {
    forall m | 0 <= m < n :: EntryIsSum(a, x, y, n, i, m)
  }

  lemma {:induction false} DotAdds(a: seq<real>, x: seq<real>, y: seq<real>, b: seq<real>, n: nat, i: nat, j: nat, m: nat)
    requires |a| == |x| == |y| == |b| == n * n && i < n && j < n && m <= n && RowIsSum(a, x, y, n, i)
    ensures Dot(a, b, n, i, j, m) == Dot(x, b, n, i, j, m) + Dot(y, b, n, i, j, m)
  {
    if m > 0 {
      DotAdds(a, x, y, b, n, i, j, m - 1);
      var p := At(n, i, m - 1);
      assert EntryIsSum(a, x, y, n, i, m - 1);
      Distributes(x[p], y[p], b[At(n, m - 1, j)]);
    }
  }

  lemma Distributes(x: real, y: real, b: real)
    ensures (x + y) * b == x * b + y * b
  {
  }

  /** The product is additive in a row of its left factor. */
  lemma ProductAdds(a: seq<real>, x: seq<real>, y: seq<real>, b: seq<real>, n: nat, i: nat, j: nat, p: real, q: real)
    requires |a| == |x| == |y| == |b| == n * n && i < n && j < n && RowIsSum(a, x, y, n, i)
    requires ProductIs(x, b, n, i, j, p) && ProductIs(y, b, n, i, j, q)
    ensures ProductIs(a, b, n, i, j, p + q)
  {
    hide Product, Dot;
    DotIsProduct(a, b, n, i, j);
    DotIsProduct(x, b, n, i, j);
    DotIsProduct(y, b, n, i, j);
    DotAdds(a, x, y, b, n, i, j, n);
  }

  function Unit(i: nat, k: nat): real {
    if i == k then 1.0 else 0.0
  }

  /** The unit matrix. */
  predicate IsUnit(a: seq<real>, n: nat) {
    |a| == n * n && forall i, k | 0 <= i < n && 0 <= k < n :: EntryIs(a, n, i, k, Unit(i, k))
  }

  lemma UnitRow(a: seq<real>, n: nat, i: nat)
    requires IsUnit(a, n) && i < n
    ensures RowIsOne(a, n, i, i) && ColumnIsOne(a, n, i, i)
  {
    forall m | 0 <= m < n && m != i ensures EntryIs(a, n, i, m, 0.0) && EntryIs(a, n, m, i, 0.0) {
      assert EntryIs(a, n, i, m, Unit(i, m)) && EntryIs(a, n, m, i, Unit(m, i));
    }
  }

  /** The unit matrix is neutral on both sides. */
  lemma ProductUnit(a: seq<real>, b: seq<real>, n: nat, i: nat, j: nat, v: real)
    requires |a| == |b| == n * n && i < n && j < n
    ensures IsUnit(a, n) && EntryIs(b, n, i, j, v) ==> ProductIs(a, b, n, i, j, v)
    ensures IsUnit(b, n) && EntryIs(a, n, i, j, v) ==> ProductIs(a, b, n, i, j, v)
  {
    if IsUnit(a, n) && EntryIs(b, n, i, j, v) {
      UnitRow(a, n, i);
      assert EntryIs(a, n, i, i, Unit(i, i));
      ProductOfOne(a, b, n, i, j, i, 1.0, v);
    }
    if IsUnit(b, n) && EntryIs(a, n, i, j, v) {
      UnitRow(b, n, j);
      assert EntryIs(b, n, j, j, Unit(j, j));
      ProductOfOne(a, b, n, i, j, j, v, 1.0);
    }
  }

  // ----- the values of the benchmark ------------------------------------------------------

  /** init_argument: the three matrices. */
  method InitArgument(n: nat) returns (A: array<real>, B: array<real>, C: array<real>)
    ensures fresh(A) && fresh(B) && fresh(C) && C != A && C != B
    ensures A.Length == B.Length == C.Length == n * n
    ensures forall x | 0 <= x < n * n :: A[x] == 2.0 && B[x] == 0.5 && C[x] == 1.0
  {
    A, B, C := new real[n * n], new real[n * n], new real[n * n];
    for j := 0 to n
      invariant j * n <= n * n
      invariant forall x | 0 <= x < j * n :: A[x] == 2.0 && B[x] == 0.5 && C[x] == 1.0
    {
      InRange(n, j, 0);
      for k := 0 to n
        invariant j * n + k <= n * n
        invariant forall x | 0 <= x < j * n + k :: A[x] == 2.0 && B[x] == 0.5 && C[x] == 1.0
      {
        A[At(n, j, k)] := 2.0;
        B[At(n, j, k)] := 0.5;
        C[At(n, j, k)] := 1.0;
      }
    }
  }

  lemma {:induction false} ConstantDot(a: seq<real>, b: seq<real>, n: nat, i: nat, j: nat, k: nat)
    requires |a| == |b| == n * n && i < n && j < n && k <= n
    requires forall x | 0 <= x < n * n :: a[x] == 2.0 && b[x] == 0.5
    ensures Dot(a, b, n, i, j, k) == k as real
  {
    if k > 0 {
      ConstantDot(a, b, n, i, j, k - 1);
    }
  }

  lemma {:induction false} GeometricOne(n: nat)
    ensures Power(1.0, n) == 1.0 && Geometric(1.0, n) == n as real
  {
    if n > 0 {
      GeometricOne(n - 1);
    }
  }

  /** Rounds add up: r more rounds on top of q. The matrices are never reset between calls. */
  lemma {:induction false} ClosedCompose(alpha: real, beta: real, q: nat, r: nat, p: real, c: real)
    ensures Closed(alpha, beta, r, p, Closed(alpha, beta, q, p, c)) == Closed(alpha, beta, q + r, p, c)
    decreases r
  {
    if r > 0 {
      ClosedCompose(alpha, beta, q, r - 1, p, c);
      ClosedStep(alpha, beta, r - 1, p, Closed(alpha, beta, q, p, c));
      ClosedStep(alpha, beta, q + r - 1, p, c);
    }
  }

  lemma {:induction false} RealProduct(a: nat, b: nat)
    ensures a as real * b as real == (a * b) as real
  {
    if a > 0 {
      RealProduct(a - 1, b);
      assert a * b == (a - 1) * b + b;
      assert a as real * b as real == (a - 1) as real * b as real + b as real;
    }
  }

  /** What each call makes of an entry. */
  function EntryAfter(n: nat, repeats: nat, calls: nat): real {
    if calls == 0 then 1.0 else Closed(1.0, 1.0, repeats, n as real, EntryAfter(n, repeats, calls - 1))
  }

  /** With the benchmark's own values every entry is 1 + rounds * N. */
  lemma {:induction false} BenchmarkEntry(n: nat, repeats: nat, calls: nat)
    ensures EntryAfter(n, repeats, calls) == (1 + calls * repeats * n) as real
  {
    if calls > 0 {
      BenchmarkEntry(n, repeats, calls - 1);
      GeometricOne(repeats);
      RealProduct(repeats, n);
      OneCallMore(n, repeats, calls - 1);
    }
  }

  lemma OneCallMore(n: nat, repeats: nat, calls: nat)
    ensures 1 + (calls + 1) * repeats * n == 1 + calls * repeats * n + repeats * n
  {
    assert (calls + 1) * repeats == calls * repeats + repeats;
  }

  /** A whole benchmark: allocation and `calls` calls of `repeats` rounds each. */
  method Benchmark(n: nat, repeats: nat, calls: nat) returns (C: array<real>)
    ensures fresh(C) && C.Length == n * n
    ensures forall x | 0 <= x < n * n :: C[x] == (1 + calls * repeats * n) as real
  {
    var A, B;
    A, B, C := InitArgument(n);
    ghost var a, b := A[..], B[..];
    ConstantProduct(a, b, n);
    for call := 0 to calls
      invariant A[..] == a && B[..] == b
      invariant forall x | 0 <= x < n * n :: C[x] == EntryAfter(n, repeats, call)
    {
      DoDgemm(A, B, C, n, 1.0, 1.0, repeats);
    }
    BenchmarkEntry(n, repeats, calls);
  }

  lemma ConstantProduct(a: seq<real>, b: seq<real>, n: nat)
    requires |a| == |b| == n * n
    requires forall x | 0 <= x < n * n :: a[x] == 2.0 && b[x] == 0.5
    ensures forall x | 0 <= x < n * n :: Product(a, b, n, x) == n as real
  {
    forall x | 0 <= x < n * n ensures Product(a, b, n, x) == n as real {
      RowAndColumn(n, x);
      ConstantDot(a, b, n, x / n, x % n, n);
    }
  }
}
