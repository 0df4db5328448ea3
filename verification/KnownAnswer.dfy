/** The first vector of sha256_test: the digest of "abc", word by word and round by round. */
module KnownAnswer {
  import opened Fips180
  import opened Sha256Code
  import opened Streaming

  // ----- eight words and eight rounds in numbers ------------------------------------------

  /** Word j + 16 of the schedule from the sixteen before it. */
  predicate Follows(w: seq<bv32>, j: nat)
    requires j + 16 < |w|
  {
    w[j + 16] == Add4(Sigma1(w[j + 14]), w[j + 9], Sigma0(w[j + 1]), w[j])
  }

  predicate NextEight(w: seq<bv32>)
    requires |w| == 24
  {
    && Follows(w, 0) && Follows(w, 1) && Follows(w, 2) && Follows(w, 3)
    && Follows(w, 4) && Follows(w, 5) && Follows(w, 6) && Follows(w, 7)
  }

  /** The values that the variables a and e take in a round, from the four before them. */
  predicate Takes(a: seq<bv32>, e: seq<bv32>, k: bv32, x: bv32, j: nat)
    requires j + 4 < |a| && j + 4 < |e|
  {
    var t1 := Add5(e[j], BigSigma1(e[j + 3]), Ch(e[j + 3], e[j + 2], e[j + 1]), k, x);
    && a[j + 4] == Add2(t1, Add2(BigSigma0(a[j + 3]), Maj(a[j + 3], a[j + 2], a[j + 1])))
    && e[j + 4] == Add2(a[j], t1)
  }

  predicate TakesFour(a: seq<bv32>, e: seq<bv32>, k: seq<bv32>, x: seq<bv32>, i: nat)
    requires |a| == |e| == 12 && |k| == |x| == 8 && i <= 4
  {
    && Takes(a, e, k[i], x[i], i) && Takes(a, e, k[i + 1], x[i + 1], i + 1)
    && Takes(a, e, k[i + 2], x[i + 2], i + 2) && Takes(a, e, k[i + 3], x[i + 3], i + 3)
  }

  // The words of the schedule, eight in a row.
  const W0: seq<bv32> := [0x61626380, 0x00000000, 0x00000000, 0x00000000, 0x00000000, 0x00000000, 0x00000000, 0x00000000]
  const W1: seq<bv32> := [0x00000000, 0x00000000, 0x00000000, 0x00000000, 0x00000000, 0x00000000, 0x00000000, 0x00000018]
  const W2: seq<bv32> := [0x61626380, 0x000f0000, 0x7da86405, 0x600003c6, 0x3e9d7b78, 0x0183fc00, 0x12dcbfdb, 0xe2e2c38e]
  const W3: seq<bv32> := [0xc8215c1a, 0xb73679a2, 0xe5bc3909, 0x32663c5b, 0x9d209d67, 0xec8726cb, 0x702138a4, 0xd3b7973b]
  const W4: seq<bv32> := [0x93f5997f, 0x3b68ba73, 0xaff4ffc1, 0xf10a5c62, 0x0a8b3996, 0x72af830a, 0x9409e33e, 0x24641522]
  const W5: seq<bv32> := [0x9f47bf94, 0xf0a64f5a, 0x3e246a79, 0x27333ba3, 0x0c4763f2, 0x840abf27, 0x7a290d5d, 0x065c43da]
  const W6: seq<bv32> := [0xfb3e89cb, 0xcc7617db, 0xb9e66c34, 0xa9993667, 0x84badedd, 0xc21462bc, 0x1487472c, 0xb20f7a99]
  const W7: seq<bv32> := [0xef57b9cd, 0xebe6b238, 0x9fe3095e, 0x78bc8d4b, 0xa43fcf15, 0x668b2ff8, 0xeeaba2cc, 0x12b1edeb]

  // The values of the variable a, four before a row of eight rounds and one after each round.
  const A0: seq<bv32> := [0xa54ff53a, 0x3c6ef372, 0xbb67ae85, 0x6a09e667] +
    [0x5d6aebcd, 0x5a6ad9ad, 0xc8c347a7, 0xd550f666, 0x04409a6a, 0x2b4209f5, 0xe5030380, 0x85a07b5f]
  const A1: seq<bv32> := [0x04409a6a, 0x2b4209f5, 0xe5030380, 0x85a07b5f] +
    [0x8e04ecb9, 0x8c87346b, 0x4798a3f4, 0xf71fc5a9, 0x87912990, 0xd932eb16, 0xc0645fde, 0xb0fa238e]
  const A2: seq<bv32> := [0x87912990, 0xd932eb16, 0xc0645fde, 0xb0fa238e] +
    [0x21da9a9b, 0xc2fbd9d1, 0xfe777bbf, 0xe1f20c33, 0x9dc68b63, 0xc2606d6d, 0xa7a3623f, 0xc5d53d8d]
  const A3: seq<bv32> := [0x9dc68b63, 0xc2606d6d, 0xa7a3623f, 0xc5d53d8d] +
    [0x1c2c2838, 0xcde8037d, 0xb62ec4bc, 0x77d37528, 0x363482c9, 0xa0060b30, 0xea992a22, 0x73b33bf5]
  const A4: seq<bv32> := [0x363482c9, 0xa0060b30, 0xea992a22, 0x73b33bf5] +
    [0x98e12507, 0xfe604df5, 0xa9a7738c, 0x65a0cfe4, 0x41a65cb1, 0x34df1604, 0x6dc57a8a, 0x79ea687a]
  const A5: seq<bv32> := [0x41a65cb1, 0x34df1604, 0x6dc57a8a, 0x79ea687a] +
    [0xd6670766, 0xdf46652f, 0x17aa0dfe, 0x9d4baf93, 0x26628815, 0x72ab4b91, 0xa14c14b0, 0x4172328d]
  const A6: seq<bv32> := [0x26628815, 0x72ab4b91, 0xa14c14b0, 0x4172328d] +
    [0x05757ceb, 0xf11bfaa8, 0x7a0508a1, 0x886e7a22, 0x101fd28f, 0xf5702fdb, 0x3ec45cdb, 0x38cc9913]
  const A7: seq<bv32> := [0x101fd28f, 0xf5702fdb, 0x3ec45cdb, 0x38cc9913] +
    [0xfcd1887b, 0xc062d46f, 0xffb70472, 0xb6ae8fff, 0xb85e2ce9, 0x04d24d6c, 0xd39a2165, 0x506e3058]

  // The same for the variable e.
  const E0: seq<bv32> := [0x5be0cd19, 0x1f83d9ab, 0x9b05688c, 0x510e527f] +
    [0xfa2a4622, 0x78ce7989, 0xf92939eb, 0x24e00850, 0x43ada245, 0x714260ad, 0x9b27a401, 0x0c657a79]
  const E1: seq<bv32> := [0x43ada245, 0x714260ad, 0x9b27a401, 0x0c657a79] +
    [0x32ca2d8c, 0x1cc92596, 0x436b23e8, 0x816fd6e9, 0x1e578218, 0x745a48de, 0x0b92f20c, 0x07590dcd]
  const E2: seq<bv32> := [0x1e578218, 0x745a48de, 0x0b92f20c, 0x07590dcd] +
    [0x8034229c, 0x846ee454, 0xcc899961, 0xb0638179, 0x8ada8930, 0xe1257970, 0x49f5114a, 0xaa47c347]
  const E3: seq<bv32> := [0x8ada8930, 0xe1257970, 0x49f5114a, 0xaa47c347] +
    [0x2823ef91, 0x14383d8e, 0xc74c6516, 0xedffbff8, 0x6112a3b7, 0xade79437, 0x0109ab3a, 0xba591112]
  const E4: seq<bv32> := [0x6112a3b7, 0xade79437, 0x0109ab3a, 0xba591112] +
    [0x9cd9f5f6, 0x59249dd3, 0x085f3833, 0xf4b002d6, 0x0772a26b, 0xa507a53d, 0xf0781bc8, 0x1efbc0a0]
  const E5: seq<bv32> := [0x0772a26b, 0xa507a53d, 0xf0781bc8, 0x1efbc0a0] +
    [0x26352d63, 0x838b2711, 0xdecd4715, 0xfda24c2e, 0xa80f11f0, 0xb7755da1, 0xd57b94a9, 0xfecf0bc6]
  const E6: seq<bv32> := [0xa80f11f0, 0xb7755da1, 0xd57b94a9, 0xfecf0bc6] +
    [0xbd714038, 0x6e5c390c, 0x52f1ccf7, 0x49231c1e, 0x529e7d00, 0x9f4787c3, 0xe50e1b4f, 0x54cb266b]
  const E7: seq<bv32> := [0x529e7d00, 0x9f4787c3, 0xe50e1b4f, 0x54cb266b] +
    [0x9b5e906c, 0x7e44008e, 0x6d83bfc6, 0xb21bad3d, 0x961f4894, 0x948d25b6, 0xfb121210, 0x5ef50f24]

  // ----- from the numbers to the schedule and the rounds ------------------------------------

  /** A longer schedule keeps the words of a shorter one. */
  lemma {:induction false} SchedulePrefix(block: seq<bv8>, m: nat, n: nat)
    requires |block| == 64 && m <= n <= 64
    ensures Schedule(block, n)[..m] == Schedule(block, m)
  {
    if m < n {
      SchedulePrefix(block, m, n - 1);
    }
  }

  lemma ScheduleAt(block: seq<bv8>, t: nat)
    requires |block| == 64 && t < 64
    ensures Schedule(block, 64)[t] == NextWord(block, Schedule(block, 64)[..t])
  {
    var w := Schedule(block, 64);
    SchedulePrefix(block, t + 1, 64);
    SchedulePrefix(block, t, 64);
    assert w[t] == w[..t + 1][t];
  }

  /** Sixteen words of the block, then the recurrence. */
  predicate IsSchedule(block: seq<bv8>, w: seq<bv32>)
    requires |block| == 64
  {
    && |w| == 64
    && (forall t | 0 <= t < 16 :: w[t] == Word(block[4 * t..4 * t + 4]))
    && (forall j | 0 <= j < 48 :: Follows(w, j))
  }

  lemma ScheduleFollows(block: seq<bv8>)
    requires |block| == 64
    ensures IsSchedule(block, Schedule(block, 64))
  {
    var w := Schedule(block, 64);
    forall t | 0 <= t < 16 ensures w[t] == Word(block[4 * t..4 * t + 4]) {
      ScheduleAt(block, t);
    }
    forall j | 0 <= j < 48 ensures Follows(w, j) {
      ScheduleAt(block, j + 16);
    }
  }

  /** The words xs stand at place t of w. */
  predicate Stand(w: seq<bv32>, t: nat, xs: seq<bv32>) {
    t + |xs| <= |w| && forall j | 0 <= j < |xs| :: w[t + j] == xs[j]
  }

  predicate Recurs(w: seq<bv32>) {
    |w| == 64 && forall j | 0 <= j < 48 :: Follows(w, j)
  }

  lemma NextStand(w: seq<bv32>, t: nat, x: seq<bv32>, y: seq<bv32>, z: seq<bv32>)
    requires |w| == 64 && t + 24 <= 64 && |x| == |y| == |z| == 8
    requires Stand(w, t, x) && Stand(w, t + 8, y)
    requires Recurs(w) && NextEight(x + y + z)
    ensures Stand(w, t + 16, z)
  {
    var v := x + y + z;
    assert forall j | 0 <= j < 8 :: v[j] == x[j] && v[j + 8] == y[j] && v[j + 16] == z[j];
    FollowAll(v);
    forall j | 0 <= j < 16 ensures w[t + j] == v[j] {
      assert j < 8 || w[t + 8 + (j - 8)] == y[j - 8];
    }
    StandsUpTo(w, t, v, 8);
    forall j | 0 <= j < 8 ensures w[t + 16 + j] == z[j] {
      assert w[t + (16 + j)] == v[16 + j];
    }
  }

  lemma FollowAll(v: seq<bv32>)
    requires |v| == 24 && NextEight(v)
    ensures forall j | 0 <= j < 8 :: Follows(v, j)
  {
  }

  lemma {:induction false} StandsUpTo(w: seq<bv32>, t: nat, v: seq<bv32>, n: nat)
    requires |w| == 64 && t + 24 <= 64 && |v| == 24 && n <= 8
    requires forall j | 0 <= j < 16 :: w[t + j] == v[j]
    requires forall j | 0 <= j < 48 :: Follows(w, j)
    requires forall j | 0 <= j < 8 :: Follows(v, j)
    ensures forall j | 0 <= j < 16 + n :: w[t + j] == v[j]
  {
    if n > 0 {
      StandsUpTo(w, t, v, n - 1);
      SameNext(w, t, v, n - 1);
    }
  }

  lemma SameNext(w: seq<bv32>, t: nat, v: seq<bv32>, n: nat)
    requires |w| == 64 && t + 24 <= 64 && |v| == 24 && n < 8
    requires forall j | 0 <= j < 16 + n :: w[t + j] == v[j]
    requires Follows(w, t + n) && Follows(v, n)
    ensures w[t + (16 + n)] == v[16 + n]
  {
    assert w[t + (n + 14)] == v[n + 14] && w[t + (n + 9)] == v[n + 9];
    assert w[t + (n + 1)] == v[n + 1] && w[t + n] == v[n];
  }

  /** The working variables after j rounds of a row. */
  function Variables(a: seq<bv32>, e: seq<bv32>, j: nat): (r: seq<bv32>)
    requires j + 4 <= |a| && j + 4 <= |e|
    ensures |r| == 8
  {
    [a[j + 3], a[j + 2], a[j + 1], a[j], e[j + 3], e[j + 2], e[j + 1], e[j]]
  }

  lemma FourRounds(rs: seq<seq<bv32>>, k: seq<bv32>, w: seq<bv32>, t: nat, ks: seq<bv32>, xs: seq<bv32>, a: seq<bv32>, e: seq<bv32>, i: nat)
    requires IsHistory(rs, k, w) && t + 8 <= 64 && i <= 4
    requires |a| == |e| == 12 && |ks| == |xs| == 8 && Stand(k, t, ks) && Stand(w, t, xs)
    requires TakesFour(a, e, ks, xs, i) && rs[t + i] == Variables(a, e, i)
    ensures rs[t + (i + 4)] == Variables(a, e, i + 4)
  {
    hide Takes, Variables;
    NextRound(rs, k, w, t, ks, xs, a, e, i);
    NextRound(rs, k, w, t, ks, xs, a, e, i + 1);
    NextRound(rs, k, w, t, ks, xs, a, e, i + 2);
    NextRound(rs, k, w, t, ks, xs, a, e, i + 3);
  }

  lemma NextRound(rs: seq<seq<bv32>>, k: seq<bv32>, w: seq<bv32>, t: nat, ks: seq<bv32>, xs: seq<bv32>, a: seq<bv32>, e: seq<bv32>, j: nat)
    requires IsHistory(rs, k, w) && t + 8 <= 64 && j < 8
    requires |a| == |e| == 12 && |ks| == |xs| == 8 && Stand(k, t, ks) && Stand(w, t, xs)
    requires Takes(a, e, ks[j], xs[j], j) && rs[t + j] == Variables(a, e, j)
    ensures rs[t + (j + 1)] == Variables(a, e, j + 1)
  {
    assert k[t + j] == ks[j] && w[t + j] == xs[j];
    assert Sha256Code.OneRound(rs, k, w, t + j);
    OneRound(Variables(a, e, j), ks[j], xs[j], a, e, j);
  }

  lemma OneRound(r: seq<bv32>, k: bv32, x: bv32, a: seq<bv32>, e: seq<bv32>, j: nat)
    requires j + 4 < |a| && j + 4 < |e| && Takes(a, e, k, x, j) && r == Variables(a, e, j)
    ensures Round(r, k, x) == Variables(a, e, j + 1)
  {
  }

  lemma RowOfRounds(rs: seq<seq<bv32>>, k: seq<bv32>, w: seq<bv32>, t: nat, ks: seq<bv32>, xs: seq<bv32>,
                    a: seq<bv32>, e: seq<bv32>)
    requires IsHistory(rs, k, w) && t + 8 <= 64
    requires |a| == |e| == 12 && |ks| == |xs| == 8 && TakesFour(a, e, ks, xs, 0) && TakesFour(a, e, ks, xs, 4)
    requires Stand(k, t, ks) && Stand(w, t, xs) && rs[t] == Variables(a, e, 0)
    ensures rs[t + 8] == Variables(a, e, 8)
  {
    hide TakesFour, Variables;
    FourRounds(rs, k, w, t, ks, xs, a, e, 0);
    FourRounds(rs, k, w, t, ks, xs, a, e, 4);
  }

  // ----- the message "abc" ---------------------------------------------------------------------

  /** The block of "abc": the message, 0x80, zeros and the length of 24 bits. */
  const ABC: Block := [0x61, 0x62, 0x63, 0x80] + Zeros(52) + [0, 0, 0, 0, 0, 0, 0, 0x18]

  lemma SmallByte(n: nat, d: nat)
    requires n < d
    ensures ByteAt(n, d) == 0
  {
  }

  lemma AbcLength()
    ensures BigEndian64(24) == [0, 0, 0, 0, 0, 0, 0, 0x18]
  {
    SmallByte(24, 0x100_0000_0000_0000);
    SmallByte(24, 0x1_0000_0000_0000);
    SmallByte(24, 0x100_0000_0000);
    SmallByte(24, 0x1_0000_0000);
    SmallByte(24, 0x100_0000);
    SmallByte(24, 0x1_0000);
    SmallByte(24, 0x100);
    assert ByteAt(24, 1) == 0x18;
  }

  lemma AbcPadded()
    ensures Pad([0x61, 0x62, 0x63]) == ABC
  {
    AbcLength();
  }

  lemma AbcWords(t: nat)
    requires t < 16
    ensures Word(ABC[4 * t..4 * t + 4]) == if t == 0 then 0x61626380 else if t == 15 then 0x18 else 0
  {
    if 0 < t < 15 {
      assert ABC[4 * t..4 * t + 4] == [0, 0, 0, 0];
    }
  }

  lemma Words2()
    ensures |W0| == |W1| == |W2| == 8 && NextEight(W0 + W1 + W2)
  {
  }

  lemma Words3()
    ensures |W1| == |W2| == |W3| == 8 && NextEight(W1 + W2 + W3)
  {
  }

  lemma Words4()
    ensures |W2| == |W3| == |W4| == 8 && NextEight(W2 + W3 + W4)
  {
  }

  lemma Words5()
    ensures |W3| == |W4| == |W5| == 8 && NextEight(W3 + W4 + W5)
  {
  }

  lemma Words6()
    ensures |W4| == |W5| == |W6| == 8 && NextEight(W4 + W5 + W6)
  {
  }

  lemma Words7()
    ensures |W5| == |W6| == |W7| == 8 && NextEight(W5 + W6 + W7)
  {
  }

  lemma AbcSchedule(w: seq<bv32>)
    requires |w| == 64 && Recurs(w) && Stand(w, 0, W0) && Stand(w, 8, W1)
    ensures Stand(w, 16, W2) && Stand(w, 24, W3)
    ensures Stand(w, 32, W4) && Stand(w, 40, W5) && Stand(w, 48, W6) && Stand(w, 56, W7)
  {
    hide *;
    Words2();
    NextStand(w, 0, W0, W1, W2);
    Words3();
    NextStand(w, 8, W1, W2, W3);
    Words4();
    NextStand(w, 16, W2, W3, W4);
    Words5();
    NextStand(w, 24, W3, W4, W5);
    Words6();
    NextStand(w, 32, W4, W5, W6);
    Words7();
    NextStand(w, 40, W5, W6, W7);
  }

  lemma Values0()
    ensures |A0| == |E0| == 12 && |K0| == |W0| == 8
    ensures TakesFour(A0, E0, K0, W0, 0)
  {
  }

  lemma MoreValues0()
    ensures |A0| == |E0| == 12 && |K0| == |W0| == 8
    ensures TakesFour(A0, E0, K0, W0, 4)
  {
  }

  lemma Values1()
    ensures |A1| == |E1| == 12 && |K1| == |W1| == 8
    ensures TakesFour(A1, E1, K1, W1, 0)
  {
  }

  lemma MoreValues1()
    ensures |A1| == |E1| == 12 && |K1| == |W1| == 8
    ensures TakesFour(A1, E1, K1, W1, 4)
  {
  }

  lemma Values2()
    ensures |A2| == |E2| == 12 && |K2| == |W2| == 8
    ensures TakesFour(A2, E2, K2, W2, 0)
  {
  }

  lemma MoreValues2()
    ensures |A2| == |E2| == 12 && |K2| == |W2| == 8
    ensures TakesFour(A2, E2, K2, W2, 4)
  {
  }

  lemma Values3()
    ensures |A3| == |E3| == 12 && |K3| == |W3| == 8
    ensures TakesFour(A3, E3, K3, W3, 0)
  {
  }

  lemma MoreValues3()
    ensures |A3| == |E3| == 12 && |K3| == |W3| == 8
    ensures TakesFour(A3, E3, K3, W3, 4)
  {
  }

  lemma Values4()
    ensures |A4| == |E4| == 12 && |K4| == |W4| == 8
    ensures TakesFour(A4, E4, K4, W4, 0)
  {
  }

  lemma MoreValues4()
    ensures |A4| == |E4| == 12 && |K4| == |W4| == 8
    ensures TakesFour(A4, E4, K4, W4, 4)
  {
  }

  lemma Values5()
    ensures |A5| == |E5| == 12 && |K5| == |W5| == 8
    ensures TakesFour(A5, E5, K5, W5, 0)
  {
  }

  lemma MoreValues5()
    ensures |A5| == |E5| == 12 && |K5| == |W5| == 8
    ensures TakesFour(A5, E5, K5, W5, 4)
  {
  }

  lemma Values6()
    ensures |A6| == |E6| == 12 && |K6| == |W6| == 8
    ensures TakesFour(A6, E6, K6, W6, 0)
  {
  }

  lemma MoreValues6()
    ensures |A6| == |E6| == 12 && |K6| == |W6| == 8
    ensures TakesFour(A6, E6, K6, W6, 4)
  {
  }

  lemma Values7()
    ensures |A7| == |E7| == 12 && |K7| == |W7| == 8
    ensures TakesFour(A7, E7, K7, W7, 0)
  {
  }

  lemma MoreValues7()
    ensures |A7| == |E7| == 12 && |K7| == |W7| == 8
    ensures TakesFour(A7, E7, K7, W7, 4)
  {
  }

  /** Every row goes on where the one before it ends. */
  lemma RowsJoin()
    ensures Variables(A0, E0, 8) == Variables(A1, E1, 0)
    ensures Variables(A1, E1, 8) == Variables(A2, E2, 0)
    ensures Variables(A2, E2, 8) == Variables(A3, E3, 0)
    ensures Variables(A3, E3, 8) == Variables(A4, E4, 0)
    ensures Variables(A4, E4, 8) == Variables(A5, E5, 0)
    ensures Variables(A5, E5, 8) == Variables(A6, E6, 0)
    ensures Variables(A6, E6, 8) == Variables(A7, E7, 0)
  {
  }

  lemma RowsOfK()
    ensures Stand(K, 0, K0)
    ensures Stand(K, 8, K1)
    ensures Stand(K, 16, K2)
    ensures Stand(K, 24, K3)
    ensures Stand(K, 32, K4)
    ensures Stand(K, 40, K5)
    ensures Stand(K, 48, K6)
    ensures Stand(K, 56, K7)
  {
    TableRows();
  }

  lemma AbcRounds(rs: seq<seq<bv32>>, w: seq<bv32>)
    requires IsHistory(rs, K, w) && rs[0] == Variables(A0, E0, 0)
    requires Stand(w, 0, W0) && Stand(w, 8, W1) && Stand(w, 16, W2) && Stand(w, 24, W3)
    requires Stand(w, 32, W4) && Stand(w, 40, W5) && Stand(w, 48, W6) && Stand(w, 56, W7)
    ensures rs[64] == Variables(A7, E7, 8)
  {
    hide *;
    RowsJoin();
    RowsOfK();
    Values0();
    MoreValues0();
    RowOfRounds(rs, K, w, 0, K0, W0, A0, E0);
    Values1();
    MoreValues1();
    RowOfRounds(rs, K, w, 8, K1, W1, A1, E1);
    Values2();
    MoreValues2();
    RowOfRounds(rs, K, w, 16, K2, W2, A2, E2);
    Values3();
    MoreValues3();
    RowOfRounds(rs, K, w, 24, K3, W3, A3, E3);
    Values4();
    MoreValues4();
    RowOfRounds(rs, K, w, 32, K4, W4, A4, E4);
    Values5();
    MoreValues5();
    RowOfRounds(rs, K, w, 40, K5, W5, A5, E5);
    Values6();
    MoreValues6();
    RowOfRounds(rs, K, w, 48, K6, W6, A6, E6);
    Values7();
    MoreValues7();
    RowOfRounds(rs, K, w, 56, K7, W7, A7, E7);
  }

  /** The bytes of the digest, as the first vector of sha256_test lists them. */
  const ABC_DIGEST: seq<bv8> :=
    [0xba, 0x78, 0x16, 0xbf, 0x8f, 0x01, 0xcf, 0xea] +
    [0x41, 0x41, 0x40, 0xde, 0x5d, 0xae, 0x22, 0x23] +
    [0xb0, 0x03, 0x61, 0xa3, 0x96, 0x17, 0x7a, 0x9c] +
    [0xb4, 0x10, 0xff, 0x61, 0xf2, 0x00, 0x15, 0xad]

  const DIGEST: seq<bv32> := [0xba7816bf, 0x8f01cfea, 0x414140de, 0x5dae2223, 0xb00361a3, 0x96177a9c, 0xb410ff61, 0xf20015ad]

  lemma AbcSum()
    ensures Add(H0, Variables(A7, E7, 8)) == DIGEST
  {
  }

  lemma AbcStart()
    ensures |H0| == 8 && |K| == 64 && H0 == Variables(A0, E0, 0)
  {
  }

  lemma AbcFirst(w: seq<bv32>)
    requires IsSchedule(ABC, w)
    ensures Recurs(w) && Stand(w, 0, W0) && Stand(w, 8, W1)
  {
    forall t | 0 <= t < 16 ensures w[t] == if t == 0 then 0x61626380 else if t == 15 then 0x18 else 0 {
      AbcWords(t);
    }
  }

  lemma AbcCompressed()
    ensures Compress(H0, ABC) == DIGEST
  {
    hide *;
    var w := Schedule(ABC, 64);
    ScheduleFollows(ABC);
    AbcFirst(w);
    AbcSchedule(w);
    AbcStart();
    var rs := History(H0, K, w);
    AbcRounds(rs, w);
    AbcSum();
    CompressIs(H0, ABC);
  }

  lemma CompressIs(h: Hash, block: Block)
    ensures Compress(h, block) == Add(h, Rounds(h, K, Schedule(block, 64), 64))
  {
  }

  lemma OutputAppend(h: seq<bv32>, x: bv32)
    ensures Output(h + [x]) == Output(h) + Bytes(x)
  {
    assert (h + [x])[..|h|] == h;
  }

  lemma OutputPair(h: seq<bv32>, x: bv32, y: bv32)
    ensures Output(h + [x, y]) == Output(h) + (Bytes(x) + Bytes(y))
  {
    hide Bytes, Output;
    OutputAppend(h, x);
    OutputAppend(h + [x], y);
    assert h + [x, y] == h + [x] + [y];
  }

  lemma OutputStart(first: seq<bv8>)
    ensures Output([]) + first == first
  {
  }

  lemma OutputOfEight(a: bv32, b: bv32, c: bv32, d: bv32, e: bv32, f: bv32, g: bv32, h: bv32)
    ensures Output([a, b, c, d, e, f, g, h]) ==
            (Bytes(a) + Bytes(b)) + (Bytes(c) + Bytes(d)) + (Bytes(e) + Bytes(f)) + (Bytes(g) + Bytes(h))
  {
    hide Bytes, Output;
    OutputStart(Bytes(a) + Bytes(b));
    OutputPair([], a, b);
    OutputPair([a, b], c, d);
    OutputPair([a, b, c, d], e, f);
    OutputPair([a, b, c, d, e, f], g, h);
    assert [] + [a, b] == [a, b] && [a, b] + [c, d] == [a, b, c, d];
    assert [a, b, c, d] + [e, f] == [a, b, c, d, e, f];
    assert [a, b, c, d, e, f] + [g, h] == [a, b, c, d, e, f, g, h];
  }

  lemma PairsOfBytes()
    ensures |DIGEST| == 8
    ensures DIGEST == [DIGEST[0], DIGEST[1], DIGEST[2], DIGEST[3], DIGEST[4], DIGEST[5], DIGEST[6], DIGEST[7]]
    ensures Bytes(DIGEST[0]) + Bytes(DIGEST[1]) ==
            [0xba, 0x78, 0x16, 0xbf, 0x8f, 0x01, 0xcf, 0xea]
    ensures Bytes(DIGEST[2]) + Bytes(DIGEST[3]) ==
            [0x41, 0x41, 0x40, 0xde, 0x5d, 0xae, 0x22, 0x23]
    ensures Bytes(DIGEST[4]) + Bytes(DIGEST[5]) ==
            [0xb0, 0x03, 0x61, 0xa3, 0x96, 0x17, 0x7a, 0x9c]
    ensures Bytes(DIGEST[6]) + Bytes(DIGEST[7]) ==
            [0xb4, 0x10, 0xff, 0x61, 0xf2, 0x00, 0x15, 0xad]
  {
  }

  lemma DigestBytes()
    ensures Output(DIGEST) == ABC_DIGEST
  {
    hide Bytes, Output;
    PairsOfBytes();
    OutputOfEight(DIGEST[0], DIGEST[1], DIGEST[2], DIGEST[3], DIGEST[4], DIGEST[5], DIGEST[6], DIGEST[7]);
  }

  /** The message digest of "abc", as the standard's example gives it. */
  lemma AbcDigest()
    ensures Sha256([0x61, 0x62, 0x63]) == ABC_DIGEST
  {
    hide *;
    AbcPadded();
    AbcCompressed();
    AbcStart();
    AbsorbBlock(Compress, H0, ABC);
    DigestBytes();
    Sha256Is([0x61, 0x62, 0x63]);
  }

  lemma Sha256Is(msg: seq<bv8>)
    requires 8 * |msg| < 0x1_0000_0000_0000_0000
    ensures Sha256(msg) == Output(Absorb(Compress, H0, Pad(msg)).0)
  {
  }

  /** The first vector of sha256_test: init, `process` on any pieces that make up "abc", done. */
  method FirstVector(pieces: seq<seq<bv8>>, out: array<bv8>) returns (code: Code)
    requires Flatten(pieces) == [0x61, 0x62, 0x63] && out.Length >= 32
    modifies out
    ensures code == Ok && out[..32] == ABC_DIGEST && out[32..] == old(out[32..])
  {
    hide Sha256;
    code := HashPieces(pieces, out);
    AbcDigest();
  }
}
