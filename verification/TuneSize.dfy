/** The size calculation of the benchmarks, with `double` and `pow` taken as exact reals:
    `root` is the real whose power-th power is the number of elements per data set. */
module TuneSize {
  import opened Powers
  import Division

  const TWO32: nat := 0x1_0000_0000

  /** root is (size * fill_factor / datasets / data_size) ^ (1 / power). */
  predicate IsRoot(root: real, cache: real, datasets: nat, data: nat, power: nat) {
    root >= 0.0 && datasets > 0 && data > 0 && power > 0 &&
    Power(root, power) == cache / datasets as real / data as real
  }

  /** The whole lines that fit one dimension. */
  function NumLines(root: real, line: nat, data: nat): nat
    requires root >= 0.0 && 0 < data <= line
  {
    root.Floor / (line / data)
  }

  /** tune_size on 32-bit unsigned numbers. */
  function Size(root: real, line: nat, data: nat): nat
    requires root >= 0.0 && 0 < data <= line
  {
    var bytesPerDimAligned := NumLines(root, line, data) * line % TWO32;
    bytesPerDimAligned / data
  }

  /** The memory that a size takes. */
  function Bytes(n: nat, datasets: nat, data: nat, power: nat): real {
    Power(n as real, power) * data as real * datasets as real
  }

  /** Everything fits 32 bits: the conversion of the root and the product. */
  predicate NoWrap(root: real, line: nat, data: nat)
    requires root >= 0.0 && 0 < data <= line
  {
    root.Floor < TWO32 && NumLines(root, line, data) * line < TWO32
  }

  /** Comparing memory with the cache is comparing sizes with the root. */
  lemma BytesOrder(n: nat, root: real, cache: real, datasets: nat, data: nat, power: nat)
    requires IsRoot(root, cache, datasets, data, power)
    ensures Bytes(n, datasets, data, power) <= cache <==> n <= root.Floor
  {
    PowerOrder(n as real, root, power);
    Scale(Power(n as real, power), Power(root, power), cache, data as real, datasets as real);
    Beyond(root, n);
  }

  lemma Beyond(root: real, n: int)
    ensures n as real <= root <==> n <= root.Floor
  {
  }

  lemma Scale(a: real, b: real, cache: real, data: real, sets: real)
    requires data > 0.0 && sets > 0.0 && b == cache / sets / data
    ensures a * data * sets <= cache <==> a <= b
  {
    assert cache / sets == b * data;
    assert cache == b * data * sets;
    assert cache - a * data * sets == (b - a) * data * sets;
    Sign(b - a, data);
    Sign((b - a) * data, sets);
  }

  lemma Sign(x: real, y: real)
    requires y > 0.0
    ensures x * y >= 0.0 <==> x >= 0.0
  {
  }

  /** The elements that the remainders of k lines add up to. */
  function Extra(k: nat, line: nat, data: nat): nat
    requires data > 0
  {
    k * (line % data) / data
  }

  lemma AlignedQuotient(k: nat, line: nat, data: nat)
    requires data > 0
    ensures k * line / data == k * (line / data) + Extra(k, line, data)
  {
    var q, s := line / data, line % data;
    var t, u := k * s / data, k * s % data;
    Spread(k, data, q, s, t, u);
    Division.Quotient(k * line, data, k * q + t, u);
  }

  lemma Spread(k: nat, d: nat, q: nat, s: nat, t: nat, u: nat)
    requires k * s == d * t + u
    ensures k * (d * q + s) == d * (k * q + t) + u
  {
    assert k * (d * q + s) == k * (d * q) + k * s;
    assert k * (d * q) == d * (k * q);
  }

  lemma LinesOf(f: nat, line: nat, data: nat)
    requires 0 < data <= line
    ensures var q := line / data; q > 0 && f == f / q * q + f % q && f % q < q
  {
    Division.Multiples(0 - line / data, data);
  }

  /** n is the elements of the whole lines plus what the remainders of the lines add up to. */
  lemma SizeForm(root: real, line: nat, data: nat)
    requires root >= 0.0 && 0 < data <= line && NoWrap(root, line, data)
    ensures var k, q, n := NumLines(root, line, data), line / data, Size(root, line, data);
            && q > 0
            && n == k * q + Extra(k, line, data)
            && (n <= root.Floor <==> Extra(k, line, data) <= root.Floor % q)
            && root.Floor < n + q
  {
    var k, q := NumLines(root, line, data), line / data;
    LinesOf(root.Floor, line, data);
    NoWrapSize(root, line, data);
    AlignedQuotient(k, line, data);
    Compare(root.Floor, k * q, root.Floor % q, Extra(k, line, data), q);
  }

  lemma NoWrapSize(root: real, line: nat, data: nat)
    requires root >= 0.0 && 0 < data <= line && NoWrap(root, line, data)
    ensures Size(root, line, data) == NumLines(root, line, data) * line / data
  {
  }

  lemma Compare(f: nat, whole: nat, rest: nat, extra: nat, q: nat)
    requires f == whole + rest && rest < q
    ensures whole + extra <= f <==> extra <= rest
    ensures f < whole + extra + q
  {
  }

  /** One more line per dimension never fits, whatever the sizes of lines and elements. */
  lemma NextLineOverflows(root: real, cache: real, datasets: nat, data: nat, power: nat, line: nat)
    requires IsRoot(root, cache, datasets, data, power) && data <= line && NoWrap(root, line, data)
    ensures cache < Bytes(Size(root, line, data) + line / data, datasets, data, power)
  {
    SizeForm(root, line, data);
    BytesOrder(Size(root, line, data) + line / data, root, cache, datasets, data, power);
  }

  /** The size itself fits exactly when the remainders of the lines add up to no more
      elements than the root has beyond its whole lines. */
  lemma FitsExactly(root: real, cache: real, datasets: nat, data: nat, power: nat, line: nat)
    requires IsRoot(root, cache, datasets, data, power) && data <= line && NoWrap(root, line, data)
    ensures line / data > 0
    ensures Bytes(Size(root, line, data), datasets, data, power) <= cache <==>
            Extra(NumLines(root, line, data), line, data) <= root.Floor % (line / data)
  {
    SizeForm(root, line, data);
    BytesOrder(Size(root, line, data), root, cache, datasets, data, power);
  }

  lemma NoExtra(k: nat, line: nat, data: nat)
    requires data > 0 && line % data == 0
    ensures Extra(k, line, data) == 0
  {
    assert k * (line % data) == 0;
  }

  /** Whole lines of whole elements. */
  lemma DividingSize(root: real, line: nat, data: nat)
    requires root >= 0.0 && 0 < data <= line && line % data == 0 && NoWrap(root, line, data)
    ensures line / data > 0 && Size(root, line, data) % (line / data) == 0
    ensures Extra(NumLines(root, line, data), line, data) <= root.Floor % (line / data)
  {
    SizeForm(root, line, data);
    var k, q := NumLines(root, line, data), line / data;
    NoExtra(k, line, data);
    Division.Quotient(k * q, q, k, 0);
  }

  /** When a line holds a whole number L of elements, the size is a multiple of L and the
      working set fills the cache to within one line per dimension. */
  lemma TightWorkingSet(root: real, cache: real, datasets: nat, data: nat, power: nat, line: nat)
    requires IsRoot(root, cache, datasets, data, power) && data <= line && line % data == 0
    requires NoWrap(root, line, data)
    ensures line / data > 0 && Size(root, line, data) % (line / data) == 0
    ensures var n, more := Size(root, line, data) as real, (Size(root, line, data) + line / data) as real;
            && Power(n, power) * data as real * datasets as real <= cache
            && cache < Power(more, power) * data as real * datasets as real
  {
    DividingSize(root, line, data);
    FitsExactly(root, cache, datasets, data, power, line);
    NextLineOverflows(root, cache, datasets, data, power, line);
  }

  /** When it does not, some root, and so some cache, makes the size too large. */
  lemma DividingIsNeeded(line: nat, data: nat, datasets: nat, power: nat) returns (root: real, cache: real)
    requires 0 < data <= line && line % data != 0 && data * line < TWO32 && datasets > 0 && power > 0
    ensures IsRoot(root, cache, datasets, data, power) && NoWrap(root, line, data)
    ensures Size(root, line, data) == line && Bytes(line, datasets, data, power) > cache
  {
    root, cache := FullLines(line, data, datasets, power);
    assert data * line == line * data && data * line >= line by {
      Division.Multiples(data, line);
    }
    Division.Quotient(data * line, data, line, 0);
    assert line == data * (line / data) + line % data;
    BytesOrder(line, root, cache, datasets, data, power);
  }

  /** The cache whose root is a line's worth of elements for each of `data` lines. */
  lemma FullLines(line: nat, data: nat, datasets: nat, power: nat) returns (root: real, cache: real)
    requires 0 < data <= line && datasets > 0 && power > 0
    ensures IsRoot(root, cache, datasets, data, power)
    ensures root == (data * (line / data)) as real && NumLines(root, line, data) == data
  {
    var q := line / data;
    root := (data * q) as real;
    var sets, width := datasets as real, data as real;
    cache := Power(root, power) * width * sets;
    Unscale(Power(root, power), cache, width, sets);
    assert q >= 1 by {
      Division.Multiples(0 - q, data);
    }
    assert root.Floor == data * q;
    Division.Quotient(data * q, q, data, 0);
  }

  lemma Unscale(b: real, cache: real, data: real, sets: real)
    requires data > 0.0 && sets > 0.0 && cache == b * data * sets
    ensures b == cache / sets / data
  {
    assert cache / sets == b * data;
  }
}
