/** The buffered interface of the SHA-256 code: init, process and done on one hash
    state, with the loops that drive it. Cutting a message into pieces does not matter. */
module Streaming {
  import opened Fips180
  import Sha256Code
  import Bits

  const TWO64: nat := 0x1_0000_0000_0000_0000

  datatype Code = Ok | InvalidArg | HashOverflow

  /** The test at the head of `process`, on 64-bit words. */
  predicate OverflowTest(length: nat, inlen: nat) {
    (length + inlen) % TWO64 < length
  }

  /** The number of bits hashed so far would no longer fit the length field. */
  predicate TooLong(length: nat, curlen: nat, inlen: nat) {
    length + 8 * (curlen + inlen) >= TWO64
  }

  /** f is the compression of section 6.2.2 of FIPS 180-4. The streaming code does not
      depend on what it computes: the original is a macro with the compression as a parameter. */
  ghost predicate IsCompress(f: (Hash, Block) -> Hash) {
    forall h: Hash, b: Block {:trigger Compress(h, b)} :: f(h, b) == Compress(h, b)
  }

  /** The digest when the bytes p are pending and the blocks before them have `length` bits:
      p is padded as section 5.1.1 of FIPS 180-4 says, with the bit length on 64 bits. */
  function PaddedDigest(f: (Hash, Block) -> Hash, h: Hash, p: seq<bv8>, length: nat): seq<bv8> {
    Output(Absorb(f, h, p + Padding(|p|, (length + 8 * |p|) % TWO64)).0)
  }

  class HashState {
    var length: nat
    var curlen: nat
    const buf: array<bv8>
    const state: array<bv32>
    /** What the compression computes. */
    ghost const f: (Hash, Block) -> Hash

    ghost predicate Valid()
      reads this
    {
      buf.Length == 64 && state.Length == 8 && length < TWO64 && IsCompress(f)
    }

    /** The hash value and the buffered bytes. */
    ghost function Value(): (Hash, seq<bv8>)
      requires Valid() && curlen <= 64
      reads this, buf, state
    {
      (state[..], buf[..curlen])
    }

    /** From the initial hash value h0, the message `msg` has been hashed so far. */
    ghost predicate Holds(h0: Hash, msg: seq<bv8>)
      reads this, buf, state
    {
      && Valid()
      && curlen < 64
      && Value() == Absorb(f, h0, msg)
      && length == 8 * (|msg| - curlen) % TWO64
    }

    /** A fresh structure; its contents do not matter before `Init`. */
    constructor ()
      ensures Valid() && fresh(buf) && fresh(state)
    {
      length, curlen := 0, 0;
      buf, state := new bv8[64], new bv32[8];
      f := (h, b) => Compress(h, b);
    }

    /** sha256_init. */
    method Init() returns (code: Code)
      requires Valid()
      modifies this, state
      ensures code == Ok && Holds(H0, [])
    {
      curlen := 0;
      length := 0;
      state[0] := 0x6A09E667;
      state[1] := 0xBB67AE85;
      state[2] := 0x3C6EF372;
      state[3] := 0xA54FF53A;
      state[4] := 0x510E527F;
      state[5] := 0x9B05688C;
      state[6] := 0x1F83D9AB;
      state[7] := 0x5BE0CD19;
      assert state[..] == H0;
      return Ok;
    }

    /** sha256_process. */
    method Process(input: seq<bv8>) returns (code: Code)
      requires Valid() && |input| < TWO64
      modifies this, buf, state
      ensures Valid()
      ensures code == if old(curlen) > 64 then InvalidArg
                      else if OverflowTest(old(length), |input|) then HashOverflow else Ok
      ensures code != Ok || input == [] ==>
                length == old(length) && curlen == old(curlen) && buf[..] == old(buf[..]) && state[..] == old(state[..])
      ensures code == Ok && input != [] ==>
                && curlen < 64
                && Value() == Absorb(f, old(state[..]), old(buf[..curlen]) + input)
                && length == (old(length) + 8 * (old(curlen) + |input| - curlen)) % TWO64
    {
      if curlen > 64 {
        return InvalidArg;
      }
      if (length + |input|) % TWO64 < length {
        return HashOverflow;
      }
      ghost var wraps := Feed(input);
      WrapsAway(length, old(length) + 8 * (old(curlen) + |input| - curlen), wraps);
      return Ok;
    }

    /** The loop of `process`; `wraps` counts how often the bit length wrapped around. */
    method Feed(input: seq<bv8>) returns (ghost wraps: nat)
      requires Valid() && curlen <= 64
      modifies this, buf, state
      ensures Valid() && curlen <= 64
      ensures Absorb(f, state[..], buf[..curlen]) == Absorb(f, old(state[..]), old(buf[..curlen]) + input)
      ensures length + wraps * TWO64 == old(length) + 8 * (old(curlen) + |input| - curlen)
      ensures if input == [] then unchanged(this, buf, state) else curlen < 64
    {
      ghost var goal := Absorb(f, state[..], buf[..curlen] + input);
      var rest, inlen := input, |input|;
      wraps := 0;
      while inlen > 0
        invariant Valid() && curlen <= 64 && inlen == |rest| <= |input|
        invariant Absorb(f, state[..], buf[..curlen] + rest) == goal
        invariant length + wraps * TWO64 == old(length) + 8 * (old(curlen) + (|input| - inlen) - curlen)
        invariant input == [] ==> unchanged(this, buf, state)
        invariant curlen == 64 ==> inlen == |input|
        decreases inlen, curlen
      {
        ghost var wrap: nat;
        if curlen == 0 && inlen >= 64 {
          wrap := TakeBlock(rest);
          rest, inlen := rest[64..], inlen - 64;
        } else {
          var n := if inlen < 64 - curlen then inlen else 64 - curlen;
          wrap := TakePart(rest, n);
          rest, inlen := rest[n..], inlen - n;
        }
        wraps := wraps + wrap;
      }
      assert buf[..curlen] + rest == buf[..curlen];
    }

    /** First branch of the loop: a block straight from the input. */
    method TakeBlock(rest: seq<bv8>) returns (ghost wrap: nat)
      requires Valid() && curlen == 0 && |rest| >= 64
      modifies this`length, state
      ensures Valid()
      ensures Absorb(f, state[..], buf[..curlen] + rest[64..]) == Absorb(f, old(state[..]), old(buf[..curlen]) + rest)
      ensures length + wrap * TWO64 == old(length) + 512
    {
      assert buf[..curlen] + rest == rest && buf[..curlen] + rest[64..] == rest[64..];
      wrap := AddBlock(rest[..64]);
    }

    /** Second branch: n bytes into the buffer, which is compressed when it is full. */
    method TakePart(rest: seq<bv8>, n: nat) returns (ghost wrap: nat)
      requires Valid() && curlen + n <= 64 && n <= |rest|
      modifies this, buf, state
      ensures Valid() && curlen == if old(curlen) + n == 64 then 0 else old(curlen) + n
      ensures Absorb(f, state[..], buf[..curlen] + rest[n..]) == Absorb(f, old(state[..]), old(buf[..curlen]) + rest)
      ensures length + wrap * TWO64 == old(length) + 8 * (old(curlen) + n - curlen)
    {
      assert buf[..curlen] + rest == (buf[..curlen] + rest[..n]) + rest[n..];
      CopyIn(rest[..n]);
      wrap := 0;
      if curlen == 64 {
        FirstBlock(f, state[..], buf[..], rest[n..]);
        assert buf[..curlen] == buf[..];
        wrap := AddBlock(buf[..]);
        curlen := 0;
        assert buf[..curlen] + rest[n..] == rest[n..];
      }
    }

    /** A compression and the addition to the bit length that follows it. */
    method AddBlock(block: Block) returns (ghost wrap: nat)
      requires Valid()
      modifies this`length, state
      ensures Valid() && state[..] == Compress(old(state[..]), block)
      ensures length + wrap * TWO64 == old(length) + 512
    {
      Sha256Code.CompressUnrolled(state, block);
      wrap := (length + 512) / TWO64;
      length := (length + 512) % TWO64;
    }

    /** sha256_done: the bytes compressed are the padding of section 5.1.1 of FIPS 180-4. */
    method Done(out: array<bv8>) returns (code: Code)
      requires Valid() && out.Length >= 32 && out != buf
      modifies this, buf, state, out
      ensures Valid() && code == if old(curlen) >= 64 then InvalidArg else Ok
      ensures code == InvalidArg ==> unchanged(this, buf, state, out)
      ensures code == Ok ==>
                && out[..32] == PaddedDigest(f, old(state[..]), old(buf[..curlen]), old(length))
                && out[32..] == old(out[32..])
    {
      if curlen >= 64 {
        return InvalidArg;
      }
      ghost var h, p, n := state[..], buf[..curlen], length;
      length := (length + curlen * 8) % TWO64;
      Finish(p);
      ghost var last := state[..];
      PaddedIs(f, h, p, n, length, last);
      StoreDigest(out);
      return Ok;
    }

    /** The padding and the last one or two compressions. */
    method Finish(ghost pending: seq<bv8>)
      requires Valid() && curlen < 64 && pending == buf[..curlen]
      modifies this`curlen, buf, state
      ensures state[..] == Absorb(f, old(state[..]), pending + Padding(|pending|, length)).0
    {
      ghost var h := state[..];
      ghost var front, none: seq<bv8> := pending + [0x80], [];
      buf[curlen] := 0x80;
      curlen := curlen + 1;
      assert buf[..curlen] == front;
      if curlen > 56 {
        FinishLong(f, h, pending, front, none, length);
        FillZeros(64);
        CompressBuffer(front + Zeros(64 - |front|));
        curlen := 0;
        LastBlock(none);
      } else {
        FinishShort(f, h, pending, front, length);
        LastBlock(front);
      }
    }

    /** Zeros up to the last eight bytes, the bit length, and the last compression. */
    method LastBlock(ghost front: seq<bv8>)
      requires Valid() && curlen <= 56 && buf[..curlen] == front
      modifies this`curlen, buf, state
      ensures state[..] == f(old(state[..]), front + Zeros(56 - |front|) + BigEndian64(length))
    {
      FillZeros(56);
      StoreLength();
      CompressBuffer(front + Zeros(56 - |front|) + BigEndian64(length));
    }

    /** Zero bytes up to position `upto` of the buffer. */
    method FillZeros(upto: nat)
      requires Valid() && curlen <= upto <= 64
      modifies this`curlen, buf
      ensures curlen == upto && buf[..upto] == old(buf[..curlen]) + Zeros(upto - old(curlen))
    {
      while curlen < upto
        invariant curlen <= upto
        invariant old(curlen) <= curlen && buf[..curlen] == old(buf[..curlen]) + Zeros(curlen - old(curlen))
      {
        buf[curlen] := 0;
        curlen := curlen + 1;
      }
    }

    method CompressBuffer(ghost block: seq<bv8>)
      requires Valid() && buf[..64] == block
      modifies state
      ensures state[..] == f(old(state[..]), block)
    {
      assert buf[..64] == buf[..];
      Sha256Code.CompressUnrolled(state, buf[..]);
    }

    /** STORE64H at the end of the buffer. */
    method StoreLength()
      requires Valid()
      modifies buf
      ensures buf[..64] == old(buf[..56]) + BigEndian64(length)
    {
      StoredBytes(length);
      Store8(buf, 56,
        StoredByte(length, 56), StoredByte(length, 48), StoredByte(length, 40), StoredByte(length, 32),
        StoredByte(length, 24), StoredByte(length, 16), StoredByte(length, 8), StoredByte(length, 0));
    }

    /** The output loop with STORE32H. */
    method StoreDigest(out: array<bv8>)
      requires Valid() && out.Length >= 32 && out != buf
      modifies out
      ensures out[..32] == Output(state[..]) && out[32..] == old(out[32..])
    {
      ghost var h := state[..];
      for i := 0 to 8
        invariant out[..4 * i] == Output(h[..i])
        invariant out[32..] == old(out[32..])
      {
        StoreWord(state[i], out, 4 * i);
        OutputStep(h[..i + 1]);
        assert h[..i + 1][..i] == h[..i];
      }
      assert h[..8] == h;
    }

    /** The memcpy to the end of the buffered bytes. */
    method CopyIn(bytes: seq<bv8>)
      requires Valid() && curlen + |bytes| <= 64
      modifies this`curlen, buf
      ensures curlen == old(curlen) + |bytes| && buf[..curlen] == old(buf[..curlen]) + bytes
      ensures bytes == [] ==> buf[..] == old(buf[..])
    {
      for i := 0 to |bytes|
        invariant curlen == old(curlen)
        invariant buf[..curlen + i] == old(buf[..curlen]) + bytes[..i]
        invariant i == 0 ==> buf[..] == old(buf[..])
      {
        buf[curlen + i] := bytes[i];
      }
      curlen := curlen + |bytes|;
      assert bytes[..|bytes|] == bytes;
    }
  }

  /** What is left after all wraps is the remainder. */
  lemma WrapsAway(length: nat, total: nat, wraps: nat)
    requires length < TWO64 && length + wraps * TWO64 == total
    ensures length == total % TWO64
  {
  }

  lemma FirstBlock(f: (Hash, Block) -> Hash, h: Hash, block: seq<bv8>, rest: seq<bv8>)
    requires |block| == 64
    ensures Absorb(f, h, block + rest) == Absorb(f, f(h, block), rest)
  {
    assert (block + rest)[..64] == block && (block + rest)[64..] == rest;
  }

  /** One byte of STORE64H: ((x) >> k) & 255. */
  function StoredByte(x: nat, k: nat): bv8 {
    ByteOf(Bits.And(Bits.Shr(x, k), 255))
  }

  lemma StoredIsDigit(x: nat, k: nat)
    ensures StoredByte(x, k) == ByteAt(x, Bits.Pow2(k))
  {
    PowersOf256();
    Bits.ShrDivides(x, k);
    Bits.MaskTakesRemainder(Bits.Shr(x, k), 8);
  }

  /** The shifts and masks give the bytes of the big-endian representation. */
  lemma StoredBytes(x: nat)
    requires x < TWO64
    ensures BigEndian64(x) ==
            [StoredByte(x, 56), StoredByte(x, 48), StoredByte(x, 40), StoredByte(x, 32),
             StoredByte(x, 24), StoredByte(x, 16), StoredByte(x, 8), StoredByte(x, 0)]
  {
    StoredIsDigit(x, 56); StoredIsDigit(x, 48); StoredIsDigit(x, 40); StoredIsDigit(x, 32);
    StoredIsDigit(x, 24); StoredIsDigit(x, 16); StoredIsDigit(x, 8); StoredIsDigit(x, 0);
    PowersOf256();
  }

  lemma PowersOf256()
    ensures Bits.Pow2(56) == 0x100_0000_0000_0000 && Bits.Pow2(48) == 0x1_0000_0000_0000
    ensures Bits.Pow2(40) == 0x100_0000_0000 && Bits.Pow2(32) == 0x1_0000_0000
    ensures Bits.Pow2(24) == 0x100_0000 && Bits.Pow2(16) == 0x1_0000 && Bits.Pow2(8) == 0x100 && Bits.Pow2(0) == 1
  {
    Bits.EightMore(0); Bits.EightMore(8); Bits.EightMore(16); Bits.EightMore(24);
    Bits.EightMore(32); Bits.EightMore(40); Bits.EightMore(48);
  }

  /** Eight assignments in a row. */
  method Store8<T>(a: array<T>, at: nat, x0: T, x1: T, x2: T, x3: T, x4: T, x5: T, x6: T, x7: T)
    requires at + 8 <= a.Length
    modifies a
    ensures a[..at + 8] == old(a[..at]) + [x0, x1, x2, x3, x4, x5, x6, x7]
  {
    a[at], a[at + 1], a[at + 2], a[at + 3] := x0, x1, x2, x3;
    a[at + 4], a[at + 5], a[at + 6], a[at + 7] := x4, x5, x6, x7;
  }

  /** A memcpy of four bytes. */
  method Store4<T>(a: array<T>, at: nat, t: seq<T>)
    requires at + 4 <= a.Length && |t| == 4
    modifies a
    ensures a[..at + 4] == old(a[..at]) + t && a[at + 4..] == old(a[at + 4..])
  {
    a[at], a[at + 1], a[at + 2], a[at + 3] := t[0], t[1], t[2], t[3];
  }

  /** STORE32H. */
  method StoreWord(x: bv32, out: array<bv8>, at: nat)
    requires at + 4 <= out.Length
    modifies out
    ensures out[..at + 4] == old(out[..at]) + Bytes(x) && out[at + 4..] == old(out[at + 4..])
  {
    Sha256Code.StoreBigEndian(x);
    Store4(out, at, Sha256Code.StoreLittle(Sha256Code.Bswap32(x)));
  }

  lemma OutputStep(h: seq<bv32>)
    requires |h| > 0
    ensures Output(h) == Output(h[..|h| - 1]) + Bytes(h[|h| - 1])
  {
  }

  lemma ZerosAppend(a: nat, b: nat)
    ensures Zeros(a) + Zeros(b) == Zeros(a + b)
  {
  }

  lemma OneBlock(f: (Hash, Block) -> Hash, h: Hash, a: seq<bv8>)
    requires |a| == 64
    ensures Absorb(f, h, a).0 == f(h, a)
  {
    assert a == a + [];
    FirstBlock(f, h, a, []);
  }

  lemma TwoBlocks(f: (Hash, Block) -> Hash, h: Hash, a: seq<bv8>, b: seq<bv8>)
    requires |a| == |b| == 64
    ensures Absorb(f, h, a + b).0 == f(f(h, a), b)
  {
    FirstBlock(f, h, a, b);
    OneBlock(f, f(h, a), b);
  }

  lemma Regroup<T>(p: seq<T>, one: seq<T>, z1: seq<T>, z2: seq<T>, tail: seq<T>)
    ensures p + (one + z1 + tail) == p + one + z1 + tail
    ensures p + (one + (z1 + z2) + tail) == (p + one + z1) + (z2 + tail)
  {
  }

  lemma ZeroCountHere(n: nat)
    requires n < 64
    ensures ZeroCount(n) == if n < 56 then 55 - n else 119 - n
  {
  }

  /** Padding that fits the block the message ends in. */
  lemma ShortPadding(p: seq<bv8>, one: seq<bv8>, front: seq<bv8>, tail: seq<bv8>)
    requires |p| < 56 && |one| == 1 && front == p + one
    ensures p + (one + Zeros(ZeroCount(|p|)) + tail) == front + Zeros(56 - |front|) + tail
  {
    ZeroCountHere(|p|);
    var z := Zeros(55 - |p|);
    Regroup(p, one, z, [], tail);
  }

  /** Padding that needs one more block. */
  lemma LongPadding(p: seq<bv8>, one: seq<bv8>, front: seq<bv8>, none: seq<bv8>, tail: seq<bv8>)
    requires 56 <= |p| < 64 && |one| == 1 && front == p + one && none == []
    ensures p + (one + Zeros(ZeroCount(|p|)) + tail)
            == (front + Zeros(64 - |front|)) + (none + Zeros(56 - |none|) + tail)
  {
    ZeroCountHere(|p|);
    var z1, z2 := Zeros(63 - |p|), Zeros(56);
    ZerosAppend(63 - |p|, 56);
    Regroup(p, one, z1, z2, tail);
    assert none + z2 == z2;
  }

  lemma FinishShort(f: (Hash, Block) -> Hash, h: Hash, p: seq<bv8>, front: seq<bv8>, bits: nat)
    requires |p| < 56 && bits < TWO64 && front == p + [0x80]
    ensures Absorb(f, h, p + Padding(|p|, bits)).0 == f(h, front + Zeros(56 - |front|) + BigEndian64(bits))
  {
    ShortPadding(p, [0x80], front, BigEndian64(bits));
    OneBlock(f, h, front + Zeros(56 - |front|) + BigEndian64(bits));
  }

  lemma FinishLong(f: (Hash, Block) -> Hash, h: Hash, p: seq<bv8>, front: seq<bv8>, none: seq<bv8>, bits: nat)
    requires 56 <= |p| < 64 && bits < TWO64 && front == p + [0x80] && none == []
    ensures Absorb(f, h, p + Padding(|p|, bits)).0
            == f(f(h, front + Zeros(64 - |front|)), none + Zeros(56 - |none|) + BigEndian64(bits))
  {
    LongPadding(p, [0x80], front, none, BigEndian64(bits));
    TwoBlocks(f, h, front + Zeros(64 - |front|), none + Zeros(56 - |none|) + BigEndian64(bits));
  }

  // ----- whole messages --------------------------------------------------------------

  function Flatten(pieces: seq<seq<bv8>>): seq<bv8> {
    if pieces == [] then [] else Flatten(pieces[..|pieces| - 1]) + pieces[|pieces| - 1]
  }

  function Repeat(data: seq<bv8>, n: nat): seq<bv8> {
    if n == 0 then [] else Repeat(data, n - 1) + data
  }

  /** The pieces of msg between the places `cuts`. */
  function Pieces(msg: seq<bv8>, cuts: seq<nat>): seq<seq<bv8>>
    requires IsCutting(msg, cuts)
  {
    seq(|cuts| - 1, i requires 0 <= i < |cuts| - 1 => msg[cuts[i]..cuts[i + 1]])
  }

  predicate IsCutting(msg: seq<bv8>, cuts: seq<nat>) {
    && |cuts| > 0 && cuts[0] == 0 && cuts[|cuts| - 1] == |msg|
    && forall i, j | 0 <= i <= j < |cuts| :: cuts[i] <= cuts[j]
  }

  lemma PiecesOfFront(msg: seq<bv8>, cuts: seq<nat>, k: nat)
    requires IsCutting(msg, cuts) && k == |cuts| - 2
    ensures IsCutting(msg[..cuts[k]], cuts[..k + 1])
    ensures Pieces(msg, cuts)[..k] == Pieces(msg[..cuts[k]], cuts[..k + 1])
  {
    forall i | 0 <= i < k
      ensures msg[cuts[i]..cuts[i + 1]] == msg[..cuts[k]][cuts[i]..cuts[i + 1]]
    {
      assert cuts[i] <= cuts[i + 1] <= cuts[k];
    }
  }

  /** Wherever a message is cut, its pieces make it up again. */
  lemma {:induction false} CutAnywhere(msg: seq<bv8>, cuts: seq<nat>)
    requires IsCutting(msg, cuts)
    ensures Flatten(Pieces(msg, cuts)) == msg
    decreases |cuts|
  {
    if |cuts| > 1 {
      var k := |cuts| - 2;
      var front, pieces := msg[..cuts[k]], Pieces(msg, cuts);
      CutAnywhere(front, cuts[..k + 1]);
      PiecesOfFront(msg, cuts, k);
      assert msg == front + msg[cuts[k]..];
    }
  }

  /** Byte r of every repetition is byte r of the data. */
  lemma {:induction false} RepeatAt(data: seq<bv8>, n: nat, q: nat, r: nat)
    requires q < n && r < |data|
    ensures q * |data| + r < |Repeat(data, n)| == n * |data| && Repeat(data, n)[q * |data| + r] == data[r]
    decreases n
  {
    RepeatLength(data, n - 1, n);
    RepeatLength(data, q + 1, n);
    assert n * |data| == (n - 1) * |data| + |data| && (q + 1) * |data| == q * |data| + |data|;
    if q < n - 1 {
      RepeatAt(data, n - 1, q, r);
    }
  }

  lemma WrapsAgree(a: int, b: int)
    ensures (a % TWO64 + b) % TWO64 == (a + b) % TWO64
  {
  }

  lemma Short(n: nat)
    requires n < TWO64
    ensures n % TWO64 == n
  {
  }

  lemma {:induction false} PrefixShorter(pieces: seq<seq<bv8>>, i: nat)
    requires i <= |pieces|
    ensures |Flatten(pieces[..i])| <= |Flatten(pieces)|
    decreases |pieces|
  {
    if i == |pieces| {
      assert pieces[..i] == pieces;
    } else {
      assert pieces[..|pieces| - 1][..i] == pieces[..i];
      PrefixShorter(pieces[..|pieces| - 1], i);
    }
  }

  lemma {:induction false} RepeatLength(data: seq<bv8>, n: nat, m: nat)
    requires n <= m
    ensures |Repeat(data, n)| <= |Repeat(data, m)| && |Repeat(data, m)| == m * |data|
    decreases m
  {
    if m > 0 {
      RepeatLength(data, if n == m then n - 1 else n, m - 1);
      assert m * |data| == (m - 1) * |data| + |data|;
    }
  }

  /** A call of `process` on a state that holds msg makes it hold msg + input; when
      the bits of both fit 64 bits, the call is accepted. */
  method Append(md: HashState, input: seq<bv8>, ghost h0: Hash, ghost msg: seq<bv8>) returns (code: Code)
    requires md.Holds(h0, msg) && |input| < TWO64
    modifies md, md.buf, md.state
    ensures code == if OverflowTest(old(md.length), |input|) then HashOverflow else Ok
    ensures code == Ok ==> md.Holds(h0, msg + input)
    ensures 8 * |msg + input| < TWO64 ==> code == Ok
  {
    ghost var c, n, h, p := md.curlen, md.length, md.state[..], md.buf[..md.curlen];
    AbsorbFrom(md.f, h0, msg, h, p, input);
    Accepted(n, |msg|, c, |input|);
    assert input == [] ==> msg + input == msg;
    code := md.Process(input);
    if input != [] && code == Ok {
      LengthStep(n, |msg|, c, |input|, md.curlen, md.length, |msg + input|);
    }
  }

  lemma LengthStep(n0: nat, m: nat, c0: nat, k: nat, c1: nat, n1: nat, total: nat)
    requires total == m + k
    requires n0 == 8 * (m - c0) % TWO64 && n1 == (n0 + 8 * (c0 + k - c1)) % TWO64
    ensures n1 == 8 * (total - c1) % TWO64
  {
    WrapsAgree(8 * (m - c0), 8 * (c0 + k - c1));
    assert 8 * (m - c0) + 8 * (c0 + k - c1) == 8 * (m + k - c1);
  }

  lemma Accepted(n: nat, m: nat, c: nat, k: nat)
    requires c <= m && n == 8 * (m - c) % TWO64
    ensures 8 * (m + k) < TWO64 ==> !OverflowTest(n, k)
  {
    if 8 * (m + k) < TWO64 {
      Short(8 * (m - c));
      Short(n + k);
    }
  }

  lemma PadWith(msg: seq<bv8>, n: nat, bits: nat)
    requires bits == 8 * |msg| < TWO64 && n == |msg| % 64
    ensures Pad(msg) == msg + Padding(n, bits)
  {
    assert n % 64 == n;
  }

  /** `done` on a state that holds msg. */
  method Digest(md: HashState, out: array<bv8>, ghost h0: Hash, ghost msg: seq<bv8>) returns (code: Code)
    requires md.Holds(h0, msg) && 8 * |msg| < TWO64 && out.Length >= 32 && out != md.buf
    modifies md, md.buf, md.state, out
    ensures code == Ok && out[..32] == Output(Absorb(md.f, h0, Pad(msg)).0) && out[32..] == old(out[32..])
  {
    DigestOf(md.f, h0, msg, md.state[..], md.buf[..md.curlen], md.length);
    code := md.Done(out);
  }

  lemma PaddedIs(f: (Hash, Block) -> Hash, h: Hash, p: seq<bv8>, length: nat, bits: nat, last: Hash)
    requires bits == (length + 8 * |p|) % TWO64 && last == Absorb(f, h, p + Padding(|p|, bits)).0
    ensures PaddedDigest(f, h, p, length) == Output(last)
  {
  }

  lemma DigestOf(f: (Hash, Block) -> Hash, h0: Hash, msg: seq<bv8>, h: Hash, p: seq<bv8>, length: nat)
    requires Absorb(f, h0, msg) == (h, p) && 8 * |msg| < TWO64 && length == 8 * (|msg| - |p|) % TWO64
    ensures PaddedDigest(f, h, p, length) == Output(Absorb(f, h0, Pad(msg)).0)
  {
    var bits := (length + 8 * |p|) % TWO64;
    BitsOf(|msg|, |p|, length);
    PadWith(msg, |p|, bits);
    AbsorbFrom(f, h0, msg, h, p, Padding(|p|, bits));
  }

  lemma BitsOf(m: nat, c: nat, n: nat)
    requires c <= m && 8 * m < TWO64 && n == 8 * (m - c) % TWO64
    ensures (n + 8 * c) % TWO64 == 8 * m
  {
    Short(8 * (m - c));
    Short(8 * m);
  }

  lemma SameDigest(f: (Hash, Block) -> Hash, msg: seq<bv8>)
    requires IsCompress(f) && 8 * |msg| < TWO64
    ensures Output(Absorb(f, H0, Pad(msg)).0) == Sha256(msg)
  {
    forall h: Hash, b: Block ensures f(h, b) == Compress(h, b) {
      assert Compress(h, b) == Compress(h, b);
    }
    AbsorbSame(f, Compress, H0, Pad(msg));
  }

  /** Any way of cutting a message into calls of `process` gives the digest of the message. */
  method HashPieces(pieces: seq<seq<bv8>>, out: array<bv8>) returns (code: Code)
    requires out.Length >= 32 && 8 * |Flatten(pieces)| < TWO64
    modifies out
    ensures code == Ok && out[..32] == Sha256(Flatten(pieces)) && out[32..] == old(out[32..])
  {
    var md := new HashState();
    code := md.Init();
    ghost var msg := [];
    for i := 0 to |pieces|
      invariant code == Ok && fresh(md.buf) && fresh(md.state) && md.Holds(H0, msg)
      invariant msg == Flatten(pieces[..i])
      invariant out[..] == old(out[..])
    {
      assert pieces[..i + 1][..i] == pieces[..i];
      PrefixShorter(pieces, i + 1);
      code := Append(md, pieces[i], H0, msg);
      msg := msg + pieces[i];
    }
    assert pieces[..|pieces|] == pieces;
    code := Digest(md, out, H0, msg);
    SameDigest(md.f, msg);
  }

  /** SHA256_call: the buffer is hashed `iterations` times on top of what the state
      holds; `ok` is false when the assertion on the return code fails. */
  method Call(md: HashState, data: seq<bv8>, iterations: nat, ghost h0: Hash, ghost msg: seq<bv8>) returns (ok: bool)
    requires md.Holds(h0, msg) && |data| < TWO64
    modifies md, md.buf, md.state
    ensures ok ==> md.Holds(h0, msg + Repeat(data, iterations))
    ensures 8 * (|msg| + iterations * |data|) < TWO64 ==> ok
  {
    ghost var all := msg;
    assert all == msg + Repeat(data, 0);
    for i := 0 to iterations
      invariant md.Holds(h0, all) && all == msg + Repeat(data, i)
    {
      RepeatNext(msg, data, i, iterations);
      var ret := Append(md, data, h0, all);
      all := all + data;
      if ret != Ok {
        return false;
      }
    }
    return true;
  }

  lemma RepeatNext(msg: seq<bv8>, data: seq<bv8>, i: nat, n: nat)
    requires i < n
    ensures (msg + Repeat(data, i)) + data == msg + Repeat(data, i + 1)
    ensures |msg + Repeat(data, i + 1)| <= |msg| + n * |data|
  {
    RepeatLength(data, i + 1, n);
  }

  /** What every state reached by `process` satisfies between calls. */
  lemma HeldState(md: HashState, h0: Hash, msg: seq<bv8>)
    requires md.Holds(h0, msg)
    ensures md.curlen < 64 && md.length % 512 == 0
    ensures 8 * |msg| < TWO64 ==> md.length / 8 + md.curlen == |msg|
    ensures md.buf[..md.curlen] == msg[|msg| - md.curlen..]
  {
    TailOf(md.f, h0, msg);
    HeldBits(|msg|, md.curlen, md.length);
  }

  lemma HeldBits(m: nat, c: nat, n: nat)
    requires c == m % 64 && n == 8 * (m - c) % TWO64
    ensures n % 512 == 0
    ensures 8 * m < TWO64 ==> n / 8 + c == m
  {
    BlockBits(m);
    if 8 * m < TWO64 {
      Short(8 * (m - c));
    }
  }

  lemma BlockBits(n: nat)
    ensures 8 * (n - n % 64) % TWO64 % 512 == 0
  {
    var q := n / 64;
    var k := 512 * q / TWO64;
    assert 8 * (n - n % 64) == 512 * q;
    assert 512 * q % TWO64 == 512 * (q - 0x80_0000_0000_0000 * k);
  }

  /** What is left over is the end of the message. */
  lemma {:induction false} TailOf(f: (Hash, Block) -> Hash, h: Hash, msg: seq<bv8>)
    ensures var rest := Absorb(f, h, msg).1; |rest| == |msg| % 64 && rest == msg[|msg| - |rest|..]
    decreases |msg|
  {
    if |msg| >= 64 {
      TailOf(f, f(h, msg[..64]), msg[64..]);
    }
  }

  /** The test never rejects input that fits; it adds bytes to bits, so it misses exactly
      the lengths from which the input itself, in bits, no longer fits. */
  lemma OverflowTestMeaning(length: nat, curlen: nat, inlen: nat)
    requires length < TWO64 && curlen <= 64 && inlen < TWO64
    ensures OverflowTest(length, inlen) ==> TooLong(length, curlen, inlen)
    ensures (OverflowTest(length, inlen) <==> TooLong(length, curlen, inlen)) <==>
            !(TWO64 - 8 * (curlen + inlen) <= length < TWO64 - inlen)
  {
    if length + inlen < TWO64 {
      Short(length + inlen);
    } else {
      Short(length + inlen - TWO64);
      WrapsAgree(length + inlen - TWO64, TWO64);
    }
  }

  /** In the whole range where the test errs, input is accepted although the message then
      has 2^64 bits or more, for which section 5.1.1 of FIPS 180-4 gives no padding. */
  method OverflowAccepted(md: HashState, input: seq<bv8>, ghost h0: Hash, ghost msg: seq<bv8>) returns (code: Code)
    requires md.Holds(h0, msg) && |input| < TWO64
    requires TooLong(md.length, md.curlen, |input|) && !OverflowTest(md.length, |input|)
    modifies md, md.buf, md.state
    ensures code == Ok && md.Holds(h0, msg + input) && 8 * |msg + input| >= TWO64
  {
    ghost var n, c := md.length, md.curlen;
    NotLonger(|msg|, c, n);
    code := Append(md, input, h0, msg);
  }

  lemma NotLonger(m: nat, c: nat, n: nat)
    requires c <= m && n == 8 * (m - c) % TWO64
    ensures n <= 8 * (m - c)
  {
  }

  /** One block too many, for instance, starts the bit length again at 0. */
  method OverflowRestarts(md: HashState, block: seq<bv8>, ghost h0: Hash, ghost msg: seq<bv8>) returns (code: Code)
    requires md.Holds(h0, msg) && md.length == TWO64 - 512 && md.curlen == 0 && |block| == 64
    modifies md, md.buf, md.state
    ensures code == Ok && md.length == 0 && md.curlen == 0
    ensures md.Holds(h0, msg + block) && 8 * |msg + block| >= TWO64
  {
    OverflowTestMeaning(md.length, 0, 64);
    ghost var m := |msg|;
    code := OverflowAccepted(md, block, h0, msg);
    TailOf(md.f, h0, msg + block);
    RestartsAt(m, md.curlen, md.length);
  }

  lemma RestartsAt(m: nat, c: nat, n: nat)
    requires 8 * m % TWO64 == TWO64 - 512 && c == (m + 64) % 64 && n == 8 * (m + 64 - c) % TWO64
    ensures c == 0 && n == 0
  {
    BlockCount(m);
    WrapsAgree(8 * m, 512);
  }

  lemma BlockCount(m: nat)
    requires 8 * m % TWO64 == TWO64 - 512
    ensures m % 64 == 0
  {
    var k := 8 * m / TWO64;
    assert 8 * m == TWO64 * k + TWO64 - 512;
  }
}
