/** SHA-256 as FIPS 180-4 defines it. */
module Fips180 {
  import Division

  // ----- section 4.1.2: functions -------------------------------------------------

  function Rotr(x: bv32, n: bv32): bv32
    requires 0 < n < 32
  {
    (x >> n) | (x << (32 - n))
  }

  function Ch(x: bv32, y: bv32, z: bv32): bv32 {
    (x & y) ^ (!x & z)
  }

  function Maj(x: bv32, y: bv32, z: bv32): bv32 {
    (x & y) ^ (x & z) ^ (y & z)
  }

  function Xor3(a: bv32, b: bv32, c: bv32): bv32 {
    a ^ b ^ c
  }

  function BigSigma0(x: bv32): bv32 {
    Xor3(Rotr(x, 2), Rotr(x, 13), Rotr(x, 22))
  }

  function BigSigma1(x: bv32): bv32 {
    Xor3(Rotr(x, 6), Rotr(x, 11), Rotr(x, 25))
  }

  function Sigma0(x: bv32): bv32 {
    Xor3(Rotr(x, 7), Rotr(x, 18), x >> 3)
  }

  function Sigma1(x: bv32): bv32 {
    Xor3(Rotr(x, 17), Rotr(x, 19), x >> 10)
  }

  // ----- sections 4.2.2 and 5.3.3: constants ----------------------------------------

  const K0: seq<bv32> := [0x428a2f98, 0x71374491, 0xb5c0fbcf, 0xe9b5dba5, 0x3956c25b, 0x59f111f1, 0x923f82a4, 0xab1c5ed5]
  const K1: seq<bv32> := [0xd807aa98, 0x12835b01, 0x243185be, 0x550c7dc3, 0x72be5d74, 0x80deb1fe, 0x9bdc06a7, 0xc19bf174]
  const K2: seq<bv32> := [0xe49b69c1, 0xefbe4786, 0x0fc19dc6, 0x240ca1cc, 0x2de92c6f, 0x4a7484aa, 0x5cb0a9dc, 0x76f988da]
  const K3: seq<bv32> := [0x983e5152, 0xa831c66d, 0xb00327c8, 0xbf597fc7, 0xc6e00bf3, 0xd5a79147, 0x06ca6351, 0x14292967]
  const K4: seq<bv32> := [0x27b70a85, 0x2e1b2138, 0x4d2c6dfc, 0x53380d13, 0x650a7354, 0x766a0abb, 0x81c2c92e, 0x92722c85]
  const K5: seq<bv32> := [0xa2bfe8a1, 0xa81a664b, 0xc24b8b70, 0xc76c51a3, 0xd192e819, 0xd6990624, 0xf40e3585, 0x106aa070]
  const K6: seq<bv32> := [0x19a4c116, 0x1e376c08, 0x2748774c, 0x34b0bcb5, 0x391c0cb3, 0x4ed8aa4a, 0x5b9cca4f, 0x682e6ff3]
  const K7: seq<bv32> := [0x748f82ee, 0x78a5636f, 0x84c87814, 0x8cc70208, 0x90befffa, 0xa4506ceb, 0xbef9a3f7, 0xc67178f2]
  const K: seq<bv32> := K0 + K1 + K2 + K3 + K4 + K5 + K6 + K7

  /** A hash value: eight words. */
  type Hash = h: seq<bv32> | |h| == 8 witness H0

  /** A message block: 64 bytes. */
  type Block = b: seq<bv8> | |b| == 64 witness seq(64, _ => 0)

  const H0: seq<bv32> := [
    0x6a09e667, 0xbb67ae85, 0x3c6ef372, 0xa54ff53a, 0x510e527f, 0x9b05688c, 0x1f83d9ab, 0x5be0cd19
  ]

  // ----- section 5.1.1: padding --------------------------------------------------------

  function Zeros(k: nat): (r: seq<bv8>)
    ensures |r| == k
    ensures forall j | 0 <= j < k :: r[j] == 0
  {
    seq(k, _ => 0)
  }

  /** The base-256 digit of n with weight d. */
  function Digit(n: nat, d: nat): (x: nat)
    requires d > 0
    ensures x < 0x100
  {
    n / d % 0x100
  }

  function ByteOf(x: nat): bv8
    requires x < 0x100
  {
    x as bv8
  }

  function ByteAt(n: nat, d: nat): bv8
    requires d > 0
  {
    ByteOf(Digit(n, d))
  }

  /** The 64-bit big-endian representation of n. */
  function BigEndian64(n: nat): (r: seq<bv8>)
    requires n < 0x1_0000_0000_0000_0000
    ensures |r| == 8
  {
    [ByteAt(n, 0x100_0000_0000_0000), ByteAt(n, 0x1_0000_0000_0000), ByteAt(n, 0x100_0000_0000),
     ByteAt(n, 0x1_0000_0000), ByteAt(n, 0x100_0000), ByteAt(n, 0x1_0000), ByteAt(n, 0x100), ByteAt(n, 1)]
  }

  /** The number that digits stand for, most significant first. */
  function DigitsValue(b: seq<nat>): nat {
    if b == [] then 0 else 0x100 * DigitsValue(b[..|b| - 1]) + b[|b| - 1]
  }

  /** Appending the digit of weight d to digits that stand for n / (256 * d). */
  lemma AppendDigit(n: nat, d: nat, b: seq<nat>)
    requires d > 0 && DigitsValue(b) == n / (0x100 * d)
    ensures DigitsValue(b + [Digit(n, d)]) == n / d
  {
    Division.DivDiv(n, d, 0x100);
    assert (b + [Digit(n, d)])[..|b|] == b;
  }

  function Digits64(n: nat): (b: seq<nat>)
    ensures |b| == 8 && forall j | 0 <= j < 8 :: b[j] < 0x100
  {
    [Digit(n, 0x100_0000_0000_0000), Digit(n, 0x1_0000_0000_0000), Digit(n, 0x100_0000_0000),
     Digit(n, 0x1_0000_0000), Digit(n, 0x100_0000), Digit(n, 0x1_0000), Digit(n, 0x100), Digit(n, 1)]
  }

  lemma UpperHalf(n: nat)
    requires n < 0x1_0000_0000_0000_0000
    ensures DigitsValue(Digits64(n)[..4]) == n / 0x1_0000_0000
  {
    var b: seq<nat> := [];
    AppendDigit(n, 0x100_0000_0000_0000, b);
    b := b + [Digit(n, 0x100_0000_0000_0000)];
    AppendDigit(n, 0x1_0000_0000_0000, b);
    b := b + [Digit(n, 0x1_0000_0000_0000)];
    AppendDigit(n, 0x100_0000_0000, b);
    b := b + [Digit(n, 0x100_0000_0000)];
    AppendDigit(n, 0x1_0000_0000, b);
    assert b + [Digit(n, 0x1_0000_0000)] == Digits64(n)[..4];
  }

  lemma DigitsOf(n: nat)
    requires n < 0x1_0000_0000_0000_0000
    ensures DigitsValue(Digits64(n)) == n
  {
    UpperHalf(n);
    var b := Digits64(n)[..4];
    AppendDigit(n, 0x100_0000, b);
    b := b + [Digit(n, 0x100_0000)];
    AppendDigit(n, 0x1_0000, b);
    b := b + [Digit(n, 0x1_0000)];
    AppendDigit(n, 0x100, b);
    b := b + [Digit(n, 0x100)];
    AppendDigit(n, 1, b);
    assert b + [Digit(n, 1)] == Digits64(n);
  }

  /** The eight bytes are the base-256 digits of the number, most significant first. */
  lemma BigEndianDigits(n: nat)
    requires n < 0x1_0000_0000_0000_0000
    ensures DigitsValue(Digits64(n)) == n
    ensures var b := Digits64(n);
            BigEndian64(n) == [ByteOf(b[0]), ByteOf(b[1]), ByteOf(b[2]), ByteOf(b[3]),
                               ByteOf(b[4]), ByteOf(b[5]), ByteOf(b[6]), ByteOf(b[7])]
  {
    DigitsOf(n);
  }

  /** The number of zero bytes after 0x80 in the padding of a message of n bytes. */
  function ZeroCount(n: nat): (k: nat)
    ensures (n + 1 + k + 8) % 64 == 0 && k < 64
  {
    (119 - n % 64) % 64
  }

  /** It is the least number that fills the last block. */
  lemma ZeroCountLeast(n: nat, k: nat)
    requires (n + 1 + k + 8) % 64 == 0
    ensures ZeroCount(n) <= k
  {
  }

  /** What follows a message whose length is n modulo 64, when `bits` is stored. */
  function Padding(n: nat, bits: nat): (r: seq<bv8>)
    requires bits < 0x1_0000_0000_0000_0000
    ensures |r| == 9 + ZeroCount(n)
  {
    [0x80] + Zeros(ZeroCount(n)) + BigEndian64(bits)
  }

  function Pad(msg: seq<bv8>): seq<bv8>
    requires 8 * |msg| < 0x1_0000_0000_0000_0000
  {
    msg + Padding(|msg|, 8 * |msg|)
  }

  /** The padded message: the message, 0x80, zeros and the length in bits, in as few blocks
      as can hold them. */
  lemma PadShape(msg: seq<bv8>)
    requires 8 * |msg| < 0x1_0000_0000_0000_0000
    ensures var p, m := Pad(msg), |msg|;
            && |p| % 64 == 0 && m + 9 <= |p| < m + 9 + 64
            && p[..m] == msg && p[m] == 0x80
            && (forall j | m < j < |p| - 8 :: p[j] == 0)
            && p[|p| - 8..] == BigEndian64(8 * m)
  {
    hide BigEndian64;
    PadParts(msg, Zeros(ZeroCount(|msg|)), BigEndian64(8 * |msg|));
  }

  lemma PadParts(msg: seq<bv8>, zeros: seq<bv8>, length: seq<bv8>)
    ensures var p, m := msg + ([0x80] + zeros + length), |msg|;
            && p[..m] == msg && p[m] == 0x80
            && (forall j | m < j < |p| - |length| :: p[j] == zeros[j - m - 1])
            && p[|p| - |length|..] == length
  {
  }

  // ----- sections 5.2.1 and 6.2.2: hash computation --------------------------------------

  function Word(b: seq<bv8>): bv32
    requires |b| == 4
  {
    ((b[0] as bv32) << 24) | ((b[1] as bv32) << 16) | ((b[2] as bv32) << 8) | (b[3] as bv32)
  }

  /** The word that follows the words p in the message schedule. */
  function NextWord(block: seq<bv8>, p: seq<bv32>): bv32
    requires |block| == 64 && |p| < 64
  {
    var t := |p|;
    if t < 16 then Word(block[4 * t..4 * t + 4])
    else Add4(Sigma1(p[t - 2]), p[t - 7], Sigma0(p[t - 15]), p[t - 16])
  }

  /** Where each of the words before it enters word t = |p| of the schedule: all other words
      being zero, it is the word at t - 16 or t - 7 itself, Sigma0 of the one at t - 15 and
      Sigma1 of the one at t - 2. */
  lemma NextWordImpulse(block: seq<bv8>, p: seq<bv32>, q: nat)
    requires |block| == 64 && 16 <= |p| < 64 && q < |p|
    requires forall j | 0 <= j < |p| && j != q :: p[j] == 0
    ensures NextWord(block, p) ==
            if q == |p| - 16 || q == |p| - 7 then p[q]
            else if q == |p| - 15 then Sigma0(p[q])
            else if q == |p| - 2 then Sigma1(p[q])
            else 0
  {
    hide Sigma0, Sigma1, Add4;
    SigmaZero();
    AddZeros(p[q]);
    AddZeros(Sigma0(p[q]));
    AddZeros(Sigma1(p[q]));
  }

  lemma SigmaZero()
    ensures Sigma0(0) == 0 && Sigma1(0) == 0
  {
  }

  lemma AddZeros(x: bv32)
    ensures Add4(x, 0, 0, 0) == Add4(0, x, 0, 0) == Add4(0, 0, x, 0) == Add4(0, 0, 0, x) == x
    ensures Add4(0, 0, 0, 0) == 0
  {
  }

  /** Words 0 .. n-1 of the message schedule. */
  function Schedule(block: seq<bv8>, n: nat): (w: seq<bv32>)
    requires |block| == 64 && n <= 64
    ensures |w| == n
  {
    if n == 0 then []
    else
      var p := Schedule(block, n - 1);
      p + [NextWord(block, p)]
  }

  function Add2(a: bv32, b: bv32): bv32 {
    a + b
  }

  function Add4(a: bv32, b: bv32, c: bv32, d: bv32): bv32 {
    a + b + c + d
  }

  function Add5(a: bv32, b: bv32, c: bv32, d: bv32, e: bv32): bv32 {
    a + b + c + d + e
  }

  /** One iteration of step 3; r holds the working variables a .. h. */
  function Round(r: seq<bv32>, k: bv32, w: bv32): (r': seq<bv32>)
    requires |r| == 8
    ensures |r'| == 8
  {
    var t1 := Add5(r[7], BigSigma1(r[4]), Ch(r[4], r[5], r[6]), k, w);
    var t2 := Add2(BigSigma0(r[0]), Maj(r[0], r[1], r[2]));
    [Add2(t1, t2), r[0], r[1], r[2], Add2(r[3], t1), r[4], r[5], r[6]]
  }

  /** The first n iterations, with constants k and message schedule w. */
  function Rounds(r: seq<bv32>, k: seq<bv32>, w: seq<bv32>, n: nat): (r': seq<bv32>)
    requires |r| == 8 && n <= |k| && n <= |w|
    ensures |r'| == 8
  {
    if n == 0 then r else Round(Rounds(r, k, w, n - 1), k[n - 1], w[n - 1])
  }

  function Add(a: seq<bv32>, b: seq<bv32>): (r: seq<bv32>)
    requires |a| == |b| == 8
    ensures |r| == 8
  {
    [Add2(a[0], b[0]), Add2(a[1], b[1]), Add2(a[2], b[2]), Add2(a[3], b[3]),
     Add2(a[4], b[4]), Add2(a[5], b[5]), Add2(a[6], b[6]), Add2(a[7], b[7])]
  }

  function Compress(h: Hash, block: Block): (r: Hash) {
    var w := Schedule(block, |block|);
    Add(h, Rounds(h, K, w, |w|))
  }

  /** The hash value and the bytes left over after all whole blocks of `data`, with
      the block function f. */
  function Absorb(f: (Hash, Block) -> Hash, h: Hash, data: seq<bv8>): (r: (Hash, seq<bv8>))
    ensures |r.1| == |data| % 64
    decreases |data|
  {
    if |data| < 64 then (h, data) else Absorb(f, f(h, data[..64]), data[64..])
  }

  function Bytes(w: bv32): seq<bv8> {
    [((w >> 24) & 0xff) as bv8, ((w >> 16) & 0xff) as bv8, ((w >> 8) & 0xff) as bv8, (w & 0xff) as bv8]
  }

  function Output(h: seq<bv32>): (r: seq<bv8>)
    ensures |r| == 4 * |h|
  {
    if |h| == 0 then [] else Output(h[..|h| - 1]) + Bytes(h[|h| - 1])
  }

  /** Byte j of word i stands at place 4 * i + j. */
  lemma {:induction false} OutputAt(h: seq<bv32>, i: nat, j: nat)
    requires i < |h| && j < 4
    ensures 4 * i + j < |Output(h)| && Output(h)[4 * i + j] == Bytes(h[i])[j]
    decreases |h|
  {
    if i < |h| - 1 {
      OutputAt(h[..|h| - 1], i, j);
    }
  }

  /** The message digest of section 6.2. */
  function Sha256(msg: seq<bv8>): (digest: seq<bv8>)
    requires 8 * |msg| < 0x1_0000_0000_0000_0000
    ensures |digest| == 32
  {
    Output(Absorb(Compress, H0, Pad(msg)).0)
  }

  // ----- laws of Absorb ---------------------------------------------------------------------

  /** A whole block is compressed, less than a block is left over. */
  lemma AbsorbBlock(f: (Hash, Block) -> Hash, h: Hash, data: seq<bv8>)
    ensures |data| < 64 ==> Absorb(f, h, data) == (h, data)
    ensures |data| == 64 ==> Absorb(f, h, data) == (f(h, data), [])
  {
    if |data| == 64 {
      assert data[..64] == data && data[64..] == [];
    }
  }

  /** Hashing can stop and go on anywhere. */
  lemma {:induction false} AbsorbAppend(f: (Hash, Block) -> Hash, h: Hash, a: seq<bv8>, b: seq<bv8>)
    ensures Absorb(f, h, a + b) == var (h1, rest) := Absorb(f, h, a); Absorb(f, h1, rest + b)
    decreases |a|
  {
    if |a| >= 64 {
      assert (a + b)[..64] == a[..64] && (a + b)[64..] == a[64..] + b;
      AbsorbAppend(f, f(h, a[..64]), a[64..], b);
    }
  }

  /** The same with the value reached after `a` given. */
  lemma AbsorbFrom(f: (Hash, Block) -> Hash, h: Hash, a: seq<bv8>, h1: Hash, rest: seq<bv8>, b: seq<bv8>)
    requires Absorb(f, h, a) == (h1, rest)
    ensures Absorb(f, h, a + b) == Absorb(f, h1, rest + b)
  {
    AbsorbAppend(f, h, a, b);
  }

  /** Block functions that agree give the same hash value. */
  lemma {:induction false} AbsorbSame(f: (Hash, Block) -> Hash, g: (Hash, Block) -> Hash, h: Hash, data: seq<bv8>)
    requires forall h: Hash, b: Block :: f(h, b) == g(h, b)
    ensures Absorb(f, h, data) == Absorb(g, h, data)
    decreases |data|
  {
    if |data| >= 64 {
      AbsorbSame(f, g, f(h, data[..64]), data[64..]);
    }
  }
}
