/** The SHA-256 compression of the benchmark: its macros and both round forms, proved
    against FIPS 180-4. The buffered init/process/done interface is in `Streaming`. */
module Sha256Code {
  import opened Fips180

  // ----- macros ---------------------------------------------------------------------

  /** RORc, with the masks of the source. */
  function RorC(x: bv32, y: bv32): bv32 {
    (((x & 0xffff_ffff) >> (y & 31)) | (x << ((32 - (y & 31)) & 31))) & 0xffff_ffff
  }

  function ChC(x: bv32, y: bv32, z: bv32): bv32 {
    z ^ (x & (y ^ z))
  }

  function MajC(x: bv32, y: bv32, z: bv32): bv32 {
    ((x | y) & z) | (x & y)
  }

  function BigSigma0C(x: bv32): bv32 { Xor3(RorC(x, 2), RorC(x, 13), RorC(x, 22)) }

  function BigSigma1C(x: bv32): bv32 { Xor3(RorC(x, 6), RorC(x, 11), RorC(x, 25)) }

  function Gamma0C(x: bv32): bv32 { Xor3(RorC(x, 7), RorC(x, 18), (x & 0xffff_ffff) >> 3) }

  function Gamma1C(x: bv32): bv32 { Xor3(RorC(x, 17), RorC(x, 19), (x & 0xffff_ffff) >> 10) }

  /** memcpy of four bytes into a little-endian word. */
  function LoadLittle(b: seq<bv8>): bv32
    requires |b| == 4
  {
    (b[0] as bv32) | ((b[1] as bv32) << 8) | ((b[2] as bv32) << 16) | ((b[3] as bv32) << 24)
  }

  function Bswap32(x: bv32): bv32 {
    ((x & 0xff) << 24) | ((x & 0xff00) << 8) | ((x >> 8) & 0xff00) | ((x >> 24) & 0xff)
  }

  /** memcpy of a little-endian word into four bytes. */
  function StoreLittle(x: bv32): seq<bv8> {
    [(x & 0xff) as bv8, ((x >> 8) & 0xff) as bv8, ((x >> 16) & 0xff) as bv8, ((x >> 24) & 0xff) as bv8]
  }

  lemma ChForms(x: bv32, y: bv32, z: bv32)
    ensures z ^ (x & (y ^ z)) == (x & y) ^ (!x & z)
  {
  }

  lemma MajForms(x: bv32, y: bv32, z: bv32)
    ensures ((x | y) & z) | (x & y) == (x & y) ^ (x & z) ^ (y & z)
  {
  }

  /** The two forms of Ch and Maj are the same functions. */
  lemma LogicForms(x: bv32, y: bv32, z: bv32)
    ensures ChC(x, y, z) == Ch(x, y, z)
    ensures MajC(x, y, z) == Maj(x, y, z)
  {
    ChForms(x, y, z);
    MajForms(x, y, z);
  }

  lemma MaskIdle(x: bv32)
    ensures x & 0xffff_ffff == x
  {
  }

  lemma ShiftIdle(y: bv32)
    requires 0 < y < 32
    ensures y & 31 == y && (32 - y) & 31 == 32 - y
  {
  }

  lemma RotateForms(x: bv32, y: bv32)
    requires 0 < y < 32
    ensures RorC(x, y) == Rotr(x, y)
  {
    ShiftIdle(y);
    MaskIdle(x);
    MaskIdle((x >> y) | (x << (32 - y)));
  }

  /** The rotation macros compute the functions of section 4.1.2. */
  lemma SigmaForms(x: bv32)
    ensures BigSigma0C(x) == BigSigma0(x) && BigSigma1C(x) == BigSigma1(x)
    ensures Gamma0C(x) == Sigma0(x) && Gamma1C(x) == Sigma1(x)
  {
    MaskIdle(x);
    RotateForms(x, 2); RotateForms(x, 13); RotateForms(x, 22);
    RotateForms(x, 6); RotateForms(x, 11); RotateForms(x, 25);
    RotateForms(x, 7); RotateForms(x, 18);
    RotateForms(x, 17); RotateForms(x, 19);
  }

  /** LOAD32H and STORE32H on a little-endian machine are big-endian. */
  lemma LoadBigEndian(b: seq<bv8>)
    requires |b| == 4
    ensures Bswap32(LoadLittle(b)) == Word(b)
  {
  }

  lemma StoreBigEndian(x: bv32)
    ensures StoreLittle(Bswap32(x)) == Bytes(x)
  {
  }

  // ----- one round -----------------------------------------------------------------------

  /** Where the unrolled code keeps working variable k after i rounds: (k - i) mod 8. */
  function Slot(k: nat, i: nat): (r: nat)
    requires k < 8
    ensures r < 8
  {
    var m := i % 8;
    if k >= m then k - m else k + 8 - m
  }

  /** The places that round i gives to a .. h. */
  predicate Places(a: nat, b: nat, c: nat, d: nat, e: nat, f: nat, g: nat, h: nat, i: nat) {
    && a == Slot(0, i) && b == Slot(1, i) && c == Slot(2, i) && d == Slot(3, i)
    && e == Slot(4, i) && f == Slot(5, i) && g == Slot(6, i) && h == Slot(7, i)
  }

  /** The working variables a .. h after i unrolled rounds. */
  function Renamed<T>(s: seq<T>, i: nat): (r: seq<T>)
    requires |s| == 8
    ensures |r| == 8
  {
    [s[Slot(0, i)], s[Slot(1, i)], s[Slot(2, i)], s[Slot(3, i)],
     s[Slot(4, i)], s[Slot(5, i)], s[Slot(6, i)], s[Slot(7, i)]]
  }

  lemma SlotNext(i: nat)
    ensures Slot(0, i + 1) == Slot(7, i)
    ensures Slot(1, i + 1) == Slot(0, i) && Slot(2, i + 1) == Slot(1, i) && Slot(3, i + 1) == Slot(2, i)
    ensures Slot(4, i + 1) == Slot(3, i) && Slot(5, i + 1) == Slot(4, i) && Slot(6, i + 1) == Slot(5, i)
    ensures Slot(7, i + 1) == Slot(6, i)
  {
    var m := i % 8;
    assert (i + 1) % 8 == if m == 7 then 0 else m + 1;
  }

  lemma SlotsDiffer(k: nat, l: nat, i: nat)
    requires k < 8 && l < 8 && k != l
    ensures Slot(k, i) != Slot(l, i)
  {
  }

  /** Overwriting d and h and renaming by one is the same as shifting. */
  lemma RenamedUpdate<T>(s: seq<T>, i: nat, a: T, b: T, c: T, d: T, e: T, f: T, g: T, h: T, d': T, h': T)
    requires |s| == 8 && Renamed(s, i) == [a, b, c, d, e, f, g, h]
    ensures Renamed(s[Slot(3, i) := d'][Slot(7, i) := h'], i + 1) == [h', a, b, c, d', e, f, g]
  {
    SlotNext(i);
    SlotsDiffer(3, 7, i);
    SlotsDiffer(3, 0, i); SlotsDiffer(3, 1, i); SlotsDiffer(3, 2, i);
    SlotsDiffer(3, 4, i); SlotsDiffer(3, 5, i); SlotsDiffer(3, 6, i);
    SlotsDiffer(7, 0, i); SlotsDiffer(7, 1, i); SlotsDiffer(7, 2, i);
    SlotsDiffer(7, 4, i); SlotsDiffer(7, 5, i); SlotsDiffer(7, 6, i);
    var r := Renamed(s, i);
    assert r[0] == a && r[1] == b && r[2] == c && r[3] == d && r[4] == e && r[5] == f && r[6] == g && r[7] == h;
  }

  /** The values the macro RND gives to d and h. */
  function RndD(a: bv32, b: bv32, c: bv32, d: bv32, e: bv32, f: bv32, g: bv32, h: bv32, ki: bv32, w: bv32): bv32 {
    Add2(d, Add5(h, BigSigma1C(e), ChC(e, f, g), ki, w))
  }

  function RndH(a: bv32, b: bv32, c: bv32, d: bv32, e: bv32, f: bv32, g: bv32, h: bv32, ki: bv32, w: bv32): bv32 {
    Add2(Add5(h, BigSigma1C(e), ChC(e, f, g), ki, w), Add2(BigSigma0C(a), MajC(a, b, c)))
  }

  lemma RndIsRound(a: bv32, b: bv32, c: bv32, d: bv32, e: bv32, f: bv32, g: bv32, h: bv32, ki: bv32, w: bv32)
    ensures Round([a, b, c, d, e, f, g, h], ki, w) ==
            [RndH(a, b, c, d, e, f, g, h, ki, w), a, b, c, RndD(a, b, c, d, e, f, g, h, ki, w), e, f, g]
  {
    SigmaForms(a);
    SigmaForms(e);
    LogicForms(a, b, c);
    LogicForms(e, f, g);
  }

  // ----- compression --------------------------------------------------------------------------

  /** The macro RND as written in round i of the unrolled code: it updates places d
      and h of S and leaves the rest, which is one round on the renamed registers. */
  method Rnd(S: array<bv32>, a: nat, b: nat, c: nat, d: nat, e: nat, f: nat, g: nat, h: nat,
             ghost i: nat, ki: bv32, w: bv32)
    requires S.Length == 8
    requires Places(a, b, c, d, e, f, g, h, i)
    modifies S
    ensures Renamed(S[..], i + 1) == Round(old(Renamed(S[..], i)), ki, w)
  {
    ghost var s := S[..];
    var va, vb, vc, vd, ve, vf, vg, vh := Load8(S, a, b, c, d, e, f, g, h, i);
    var d' := RndD(va, vb, vc, vd, ve, vf, vg, vh, ki, w);
    var h' := RndH(va, vb, vc, vd, ve, vf, vg, vh, ki, w);
    RndRenamed(s, i, ki, w, va, vb, vc, vd, ve, vf, vg, vh);
    Store2(S, d, h, d', h');
  }

  /** The eight working variables of round i. */
  method Load8<T>(S: array<T>, a: nat, b: nat, c: nat, d: nat, e: nat, f: nat, g: nat, h: nat, ghost i: nat)
    returns (va: T, vb: T, vc: T, vd: T, ve: T, vf: T, vg: T, vh: T)
    requires S.Length == 8
    requires Places(a, b, c, d, e, f, g, h, i)
    ensures Renamed(S[..], i) == [va, vb, vc, vd, ve, vf, vg, vh]
  {
    va, vb, vc, vd, ve, vf, vg, vh := S[a], S[b], S[c], S[d], S[e], S[f], S[g], S[h];
  }

  /** Two assignments. */
  method Store2<T>(S: array<T>, d: nat, h: nat, x: T, y: T)
    requires d < S.Length && h < S.Length
    modifies S
    ensures S[..] == old(S[..])[d := x][h := y]
  {
    S[d] := x;
    S[h] := y;
  }

  lemma RndRenamed(s: seq<bv32>, i: nat, ki: bv32, w: bv32,
                   a: bv32, b: bv32, c: bv32, d: bv32, e: bv32, f: bv32, g: bv32, h: bv32)
    requires |s| == 8 && Renamed(s, i) == [a, b, c, d, e, f, g, h]
    ensures Renamed(s[Slot(3, i) := RndD(a, b, c, d, e, f, g, h, ki, w)]
                     [Slot(7, i) := RndH(a, b, c, d, e, f, g, h, ki, w)], i + 1)
            == Round(Renamed(s, i), ki, w)
  {
    RenamedUpdate(s, i, a, b, c, d, e, f, g, h, RndD(a, b, c, d, e, f, g, h, ki, w), RndH(a, b, c, d, e, f, g, h, ki, w));
    RndIsRound(a, b, c, d, e, f, g, h, ki, w);
  }

  /** rs lists the working variables after 0, 1, .. 64 rounds. */
  predicate IsHistory(rs: seq<seq<bv32>>, k: seq<bv32>, w: seq<bv32>) {
    && |rs| == 65 && |k| == |w| == 64
    && forall n | 0 <= n < 64 :: OneRound(rs, k, w, n)
  }

  predicate OneRound(rs: seq<seq<bv32>>, k: seq<bv32>, w: seq<bv32>, n: nat)
    requires |rs| == 65 && |k| == |w| == 64 && n < 64
  {
    |rs[n]| == 8 && rs[n + 1] == Round(rs[n], k[n], w[n])
  }

  /** After n rounds the working variables stand renamed by i in s. */
  predicate After<T(==)>(s: seq<T>, i: nat, rs: seq<seq<T>>, n: nat) {
    |s| == 8 && n < |rs| && Renamed(s, i) == rs[n]
  }

  /** One line of the unrolled code, the n-th of all, in place i of its group of eight. */
  method Line(S: array<bv32>, W: array<bv32>, ghost rs: seq<seq<bv32>>, ghost k: seq<bv32>,
              a: nat, b: nat, c: nat, d: nat, e: nat, f: nat, g: nat, h: nat,
              ghost i: nat, n: nat, ki: bv32)
    requires S != W && IsHistory(rs, k, W[..]) && Places(a, b, c, d, e, f, g, h, i)
    requires After(S[..], i, rs, n) && n < 64 && ki == k[n]
    modifies S
    ensures After(S[..], i + 1, rs, n + 1)
  {
    assert OneRound(rs, k, W[..], n);
    Rnd(S, a, b, c, d, e, f, g, h, i, ki, W[n]);
  }

  /** Eight consecutive lines of the unrolled code. */
  method EightRounds(S: array<bv32>, W: array<bv32>, ghost rs: seq<seq<bv32>>, ghost k: seq<bv32>, base: nat,
                     k0: bv32, k1: bv32, k2: bv32, k3: bv32, k4: bv32, k5: bv32, k6: bv32, k7: bv32)
    requires S != W && IsHistory(rs, k, W[..])
    requires base + 8 <= |k| && k[base..base + 8] == [k0, k1, k2, k3, k4, k5, k6, k7]
    requires After(S[..], 0, rs, base)
    modifies S
    ensures After(S[..], 0, rs, base + 8)
  {
    EightValues(k, base, k0, k1, k2, k3, k4, k5, k6, k7);
    Line(S, W, rs, k, 0, 1, 2, 3, 4, 5, 6, 7, 0, base + 0, k0);
    Line(S, W, rs, k, 7, 0, 1, 2, 3, 4, 5, 6, 1, base + 1, k1);
    Line(S, W, rs, k, 6, 7, 0, 1, 2, 3, 4, 5, 2, base + 2, k2);
    Line(S, W, rs, k, 5, 6, 7, 0, 1, 2, 3, 4, 3, base + 3, k3);
    Line(S, W, rs, k, 4, 5, 6, 7, 0, 1, 2, 3, 4, base + 4, k4);
    Line(S, W, rs, k, 3, 4, 5, 6, 7, 0, 1, 2, 5, base + 5, k5);
    Line(S, W, rs, k, 2, 3, 4, 5, 6, 7, 0, 1, 6, base + 6, k6);
    Line(S, W, rs, k, 1, 2, 3, 4, 5, 6, 7, 0, 7, base + 7, k7);
    RenamedStart(S[..]);
  }

  lemma RenamedStart<T>(s: seq<T>)
    requires |s| == 8
    ensures Renamed(s, 0) == s && Renamed(s, 8) == s
  {
  }

  lemma EightValues<T>(k: seq<T>, base: nat, k0: T, k1: T, k2: T, k3: T, k4: T, k5: T, k6: T, k7: T)
    requires base + 8 <= |k| && k[base..base + 8] == [k0, k1, k2, k3, k4, k5, k6, k7]
    ensures k[base + 0] == k0 && k[base + 1] == k1 && k[base + 2] == k2 && k[base + 3] == k3
    ensures k[base + 4] == k4 && k[base + 5] == k5 && k[base + 6] == k6 && k[base + 7] == k7
  {
    var s := k[base..base + 8];
    assert s[0] == k0 && s[1] == k1 && s[2] == k2 && s[3] == k3;
    assert s[4] == k4 && s[5] == k5 && s[6] == k6 && s[7] == k7;
  }

  /** The 64 lines of the unrolled code, with the constants written in them. */
  method UnrolledRounds(S: array<bv32>, W: array<bv32>, ghost rs: seq<seq<bv32>>, ghost k: seq<bv32>)
    requires S != W && IsHistory(rs, k, W[..])
    requires k[0..8] == [0x428a2f98, 0x71374491, 0xb5c0fbcf, 0xe9b5dba5, 0x3956c25b, 0x59f111f1, 0x923f82a4, 0xab1c5ed5]
    requires k[8..16] == [0xd807aa98, 0x12835b01, 0x243185be, 0x550c7dc3, 0x72be5d74, 0x80deb1fe, 0x9bdc06a7, 0xc19bf174]
    requires k[16..24] == [0xe49b69c1, 0xefbe4786, 0x0fc19dc6, 0x240ca1cc, 0x2de92c6f, 0x4a7484aa, 0x5cb0a9dc, 0x76f988da]
    requires k[24..32] == [0x983e5152, 0xa831c66d, 0xb00327c8, 0xbf597fc7, 0xc6e00bf3, 0xd5a79147, 0x06ca6351, 0x14292967]
    requires k[32..40] == [0x27b70a85, 0x2e1b2138, 0x4d2c6dfc, 0x53380d13, 0x650a7354, 0x766a0abb, 0x81c2c92e, 0x92722c85]
    requires k[40..48] == [0xa2bfe8a1, 0xa81a664b, 0xc24b8b70, 0xc76c51a3, 0xd192e819, 0xd6990624, 0xf40e3585, 0x106aa070]
    requires k[48..56] == [0x19a4c116, 0x1e376c08, 0x2748774c, 0x34b0bcb5, 0x391c0cb3, 0x4ed8aa4a, 0x5b9cca4f, 0x682e6ff3]
    requires k[56..64] == [0x748f82ee, 0x78a5636f, 0x84c87814, 0x8cc70208, 0x90befffa, 0xa4506ceb, 0xbef9a3f7, 0xc67178f2]
    requires After(S[..], 0, rs, 0)
    modifies S
    ensures After(S[..], 0, rs, 64)
  {
    EightRounds(S, W, rs, k, 0, 0x428a2f98, 0x71374491, 0xb5c0fbcf, 0xe9b5dba5, 0x3956c25b, 0x59f111f1, 0x923f82a4, 0xab1c5ed5);
    EightRounds(S, W, rs, k, 8, 0xd807aa98, 0x12835b01, 0x243185be, 0x550c7dc3, 0x72be5d74, 0x80deb1fe, 0x9bdc06a7, 0xc19bf174);
    EightRounds(S, W, rs, k, 16, 0xe49b69c1, 0xefbe4786, 0x0fc19dc6, 0x240ca1cc, 0x2de92c6f, 0x4a7484aa, 0x5cb0a9dc, 0x76f988da);
    EightRounds(S, W, rs, k, 24, 0x983e5152, 0xa831c66d, 0xb00327c8, 0xbf597fc7, 0xc6e00bf3, 0xd5a79147, 0x06ca6351, 0x14292967);
    EightRounds(S, W, rs, k, 32, 0x27b70a85, 0x2e1b2138, 0x4d2c6dfc, 0x53380d13, 0x650a7354, 0x766a0abb, 0x81c2c92e, 0x92722c85);
    EightRounds(S, W, rs, k, 40, 0xa2bfe8a1, 0xa81a664b, 0xc24b8b70, 0xc76c51a3, 0xd192e819, 0xd6990624, 0xf40e3585, 0x106aa070);
    EightRounds(S, W, rs, k, 48, 0x19a4c116, 0x1e376c08, 0x2748774c, 0x34b0bcb5, 0x391c0cb3, 0x4ed8aa4a, 0x5b9cca4f, 0x682e6ff3);
    EightRounds(S, W, rs, k, 56, 0x748f82ee, 0x78a5636f, 0x84c87814, 0x8cc70208, 0x90befffa, 0xa4506ceb, 0xbef9a3f7, 0xc67178f2);
  }

  /** The constants in the unrolled code are those of section 4.2.2. */
  lemma TableRows()
    ensures |K| == 64
    ensures K[0..8] == [0x428a2f98, 0x71374491, 0xb5c0fbcf, 0xe9b5dba5, 0x3956c25b, 0x59f111f1, 0x923f82a4, 0xab1c5ed5]
    ensures K[8..16] == [0xd807aa98, 0x12835b01, 0x243185be, 0x550c7dc3, 0x72be5d74, 0x80deb1fe, 0x9bdc06a7, 0xc19bf174]
    ensures K[16..24] == [0xe49b69c1, 0xefbe4786, 0x0fc19dc6, 0x240ca1cc, 0x2de92c6f, 0x4a7484aa, 0x5cb0a9dc, 0x76f988da]
    ensures K[24..32] == [0x983e5152, 0xa831c66d, 0xb00327c8, 0xbf597fc7, 0xc6e00bf3, 0xd5a79147, 0x06ca6351, 0x14292967]
    ensures K[32..40] == [0x27b70a85, 0x2e1b2138, 0x4d2c6dfc, 0x53380d13, 0x650a7354, 0x766a0abb, 0x81c2c92e, 0x92722c85]
    ensures K[40..48] == [0xa2bfe8a1, 0xa81a664b, 0xc24b8b70, 0xc76c51a3, 0xd192e819, 0xd6990624, 0xf40e3585, 0x106aa070]
    ensures K[48..56] == [0x19a4c116, 0x1e376c08, 0x2748774c, 0x34b0bcb5, 0x391c0cb3, 0x4ed8aa4a, 0x5b9cca4f, 0x682e6ff3]
    ensures K[56..64] == [0x748f82ee, 0x78a5636f, 0x84c87814, 0x8cc70208, 0x90befffa, 0xa4506ceb, 0xbef9a3f7, 0xc67178f2]
  {
    Rows8(K0, K1, K2, K3, K4, K5, K6, K7);
  }

  lemma Rows8<T>(a: seq<T>, b: seq<T>, c: seq<T>, d: seq<T>, e: seq<T>, f: seq<T>, g: seq<T>, h: seq<T>)
    requires |a| == |b| == |c| == |d| == |e| == |f| == |g| == |h| == 8
    ensures var s := a + b + c + d + e + f + g + h;
            && |s| == 64
            && s[0..8] == a && s[8..16] == b && s[16..24] == c && s[24..32] == d
            && s[32..40] == e && s[40..48] == f && s[48..56] == g && s[56..64] == h
  {
  }

  /** Filling W: the sixteen words of the block, then the recurrence. */
  method FillSchedule(block: seq<bv8>, W: array<bv32>)
    requires |block| == 64 && W.Length == 64
    modifies W
    ensures W[..] == Schedule(block, 64)
  {
    for i := 0 to 16
      invariant W[..i] == Schedule(block, i)
    {
      W[i] := Bswap32(LoadLittle(block[4 * i..4 * i + 4]));
      LoadBigEndian(block[4 * i..4 * i + 4]);
      ScheduleStep(block, W[..i], W[..i + 1]);
    }
    for i := 16 to 64
      invariant W[..i] == Schedule(block, i)
    {
      SigmaForms(W[i - 2]);
      SigmaForms(W[i - 15]);
      W[i] := Add4(Gamma1C(W[i - 2]), W[i - 7], Gamma0C(W[i - 15]), W[i - 16]);
      ScheduleStep(block, W[..i], W[..i + 1]);
    }
    assert W[..] == W[..64];
  }

  lemma ScheduleStep(block: seq<bv8>, p: seq<bv32>, q: seq<bv32>)
    requires |block| == 64 && |p| < 64 && p == Schedule(block, |p|)
    requires |q| == |p| + 1 && q[..|p|] == p && q[|p|] == NextWord(block, p)
    ensures q == Schedule(block, |q|)
  {
    assert q == p + [q[|p|]];
  }

  ghost function History(r: seq<bv32>, k: seq<bv32>, w: seq<bv32>): (rs: seq<seq<bv32>>)
    requires |r| == 8 && |k| == |w| == 64
    ensures IsHistory(rs, k, w) && rs[0] == r && rs[64] == Rounds(r, k, w, 64)
  {
    var rs := seq(65, n requires 0 <= n < 65 => Rounds(r, k, w, n));
    assert forall n | 0 <= n < 64 :: OneRound(rs, k, w, n) by {
      forall n | 0 <= n < 64 ensures OneRound(rs, k, w, n) {
        assert rs[n + 1] == Rounds(r, k, w, n + 1);
      }
    }
    rs
  }

  /** sha256_compress, unrolled. */
  method CompressUnrolled(state: array<bv32>, block: seq<bv8>)
    requires state.Length == 8 && |block| == 64
    modifies state
    ensures state[..] == Compress(old(state[..]), block)
  {
    var S, W := new bv32[8], new bv32[64];
    CopyState(state, S);
    FillSchedule(block, W);
    TableRows();
    ghost var rs := History(state[..], K, W[..]);
    RenamedStart(S[..]);
    UnrolledRounds(S, W, rs, K);
    RenamedStart(S[..]);
    Feedback(state, S);
  }

  /** The assignments after RND in the small form: every working variable moves one place on. */
  method ShiftRegisters<T>(S: array<T>)
    requires S.Length == 8
    modifies S
    ensures S[..] == Renamed(old(S[..]), 1)
  {
    ghost var s := S[..];
    var t := S[7];
    S[7] := S[6];
    S[6] := S[5];
    S[5] := S[4];
    S[4] := S[3];
    S[3] := S[2];
    S[2] := S[1];
    S[1] := S[0];
    S[0] := t;
    ShiftIsRename(s, S[..]);
  }

  lemma ShiftIsRename<T>(s: seq<T>, s': seq<T>)
    requires |s| == |s'| == 8
    requires s'[0] == s[7] && s'[1] == s[0] && s'[2] == s[1] && s'[3] == s[2]
    requires s'[4] == s[3] && s'[5] == s[4] && s'[6] == s[5] && s'[7] == s[6]
    ensures s' == Renamed(s, 1)
  {
  }

  /** The loop of the small form, with the constants in a table. */
  method SmallRounds(S: array<bv32>, W: array<bv32>, k: seq<bv32>, ghost rs: seq<seq<bv32>>)
    requires S != W && IsHistory(rs, k, W[..]) && S.Length == 8 && S[..] == rs[0]
    modifies S
    ensures S[..] == rs[64]
  {
    ghost var w := W[..];
    for i := 0 to 64
      invariant W[..] == w && S[..] == rs[i]
    {
      RenamedStart(S[..]);
      Line(S, W, rs, k, 0, 1, 2, 3, 4, 5, 6, 7, 0, i, k[i]);
      ShiftRegisters(S);
    }
  }

  /** sha256_compress as LTC_SMALL_CODE builds it: the same function as the unrolled form. */
  method CompressSmall(state: array<bv32>, block: seq<bv8>)
    requires state.Length == 8 && |block| == 64
    modifies state
    ensures state[..] == Compress(old(state[..]), block)
  {
    var S, W := new bv32[8], new bv32[64];
    CopyState(state, S);
    FillSchedule(block, W);
    TableRows();
    SmallRounds(S, W, K, History(state[..], K, W[..]));
    Feedback(state, S);
  }

  /** The loop that copies the state. */
  method CopyState(state: array<bv32>, S: array<bv32>)
    requires state.Length == 8 && S.Length == 8 && S != state
    modifies S
    ensures S[..] == state[..]
  {
    for i := 0 to 8
      invariant S[..i] == state[..i]
    {
      S[i] := state[i];
    }
    assert S[..] == S[..8] && state[..] == state[..8];
  }

  /** The loop that adds the working variables to the state. */
  method Feedback(state: array<bv32>, S: array<bv32>)
    requires state.Length == 8 && S.Length == 8 && S != state
    modifies state
    ensures state[..] == Add(old(state[..]), S[..])
  {
    ghost var h, s := state[..], S[..];
    for i := 0 to 8
      invariant S[..] == s
      invariant forall j | 0 <= j < i :: state[j] == Add2(h[j], s[j])
      invariant forall j | i <= j < 8 :: state[j] == h[j]
    {
      state[i] := Add2(state[i], S[i]);
    }
  }
}
