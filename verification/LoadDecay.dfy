/** Table-driven decay of a CPU load over ticks that a tickless CPU missed. */
module LoadDecay {
  import opened FixedPoint

  const CPU_LOAD_IDX_MAX := 5

  /** After this many ticks the load at an index is taken to be zero. */
  const DEGRADE_ZERO_TICKS: seq<nat> := [0, 8, 32, 64, 128]

  /** Column `j` is the decay over 2^j ticks, in 128ths. */
  const DEGRADE_FACTOR: seq<seq<nat>> :=
    [[0, 0, 0, 0, 0, 0, 0, 0],
     [64, 32, 8, 0, 0, 0, 0, 0],
     [96, 72, 40, 12, 1, 0, 0, 0],
     [112, 98, 75, 43, 15, 1, 0, 0],
     [120, 112, 98, 76, 45, 16, 2, 0]]

  function IPow(a: nat, n: nat): nat {
    if n == 0 then 1 else a * IPow(a, n - 1)
  }

  /** `floor(load * factor / 128)` on the register. */
  function Degrade(load: nat, factor: nat): nat {
    WordTimes(load, factor) / 128
  }

  function Factor(idx: nat, j: nat): nat
    requires idx < CPU_LOAD_IDX_MAX && j <= 7
  {
    DEGRADE_FACTOR[idx][j]
  }

  /** The load left after the bits of `missed`, the lowest of which weighs 2^j ticks. */
  function DecayFrom(load: nat, missed: nat, idx: nat, j: nat): nat
    requires idx < CPU_LOAD_IDX_MAX && j <= 7 && missed < Pow2(7 - j)
    decreases missed
  {
    if missed == 0 then
      load
    else
      DecayFrom(if missed % 2 == 1 then Degrade(load, Factor(idx, j)) else load, missed / 2, idx, j + 1)
  }

  function Decay(load: nat, missed: nat, idx: nat): nat
    requires idx < CPU_LOAD_IDX_MAX
  {
    if missed == 0 then load
    else if missed >= DEGRADE_ZERO_TICKS[idx] then 0
    else if idx == 1 then ShiftRight(load, missed)
    else SevenBits(idx, missed); DecayFrom(load, missed, idx, 0)
  }

  lemma SevenBits(idx: nat, missed: nat)
    requires idx < CPU_LOAD_IDX_MAX && missed < DEGRADE_ZERO_TICKS[idx]
    ensures missed < 128 == Pow2(7)
  {
  }

  /** core.c's loop.  That `Factor(idx, j)` is a legal access is part of what is
      verified: fewer than 128 missed ticks have at most seven bits. */
  method DecayLoadMissed(load0: nat, missed0: nat, idx: nat) returns (load: nat)
    requires idx < CPU_LOAD_IDX_MAX
    ensures load == Decay(load0, missed0, idx)
  {
    load := load0;
    if missed0 == 0 {
      return load;
    }
    if missed0 >= DEGRADE_ZERO_TICKS[idx] {
      return 0;
    }
    if idx == 1 {
      return ShiftRight(load, missed0);
    }
    SevenBits(idx, missed0);
    var missed: nat, j: nat := missed0, 0;
    while missed != 0
      invariant j <= 7 && missed < Pow2(7 - j)
      invariant DecayFrom(load, missed, idx, j) == Decay(load0, missed0, idx)
      decreases missed
    {
      if missed % 2 == 1 {
        load := WordTimes(load, DEGRADE_FACTOR[idx][j]) / 128;
      }
      missed := missed / 2;
      j := j + 1;
    }
  }

  // ---------------------------------------------------------------------------
  // never an overestimate
  // ---------------------------------------------------------------------------

  lemma {:induction false} IPowAdd(a: nat, m: nat, n: nat)
    ensures IPow(a, m + n) == IPow(a, m) * IPow(a, n)
  {
    if m > 0 {
      IPowAdd(a, m - 1, n);
      Associate(a, IPow(a, m - 1), IPow(a, n));
    }
  }

  lemma Associate(a: int, b: int, c: int)
    ensures (a * b) * c == a * (b * c)
  {
  }

  /** A decay of a step by `factor` stands for a true decay by `c / b`. */
  predicate Underestimates(factor: nat, b: nat, c: nat) {
    factor * b <= 128 * c
  }

  /** `a` squared `j` times, that is `a^(2^j)`. */
  function Tower(a: nat, j: nat): nat {
    if j == 0 then a else Tower(a, j - 1) * Tower(a, j - 1)
  }

  lemma {:induction false} TowerIsPower(a: nat, j: nat)
    ensures Tower(a, j) == IPow(a, Pow2(j))
  {
    if j == 0 {
      assert IPow(a, 1) == a * IPow(a, 0);
    } else {
      TowerIsPower(a, j - 1);
      IPowAdd(a, Pow2(j - 1), Pow2(j - 1));
    }
  }

  /** `factor` is `c / b` in 128ths, rounded down. */
  predicate RoundsDown(factor: nat, b: nat, c: nat) {
    factor * b <= 128 * c < (factor + 1) * b
  }

  lemma Row1(j: nat)
    requires j <= 7
    ensures RoundsDown(DEGRADE_FACTOR[1][j], Tower(2, j), Tower(1, j))
  {
    assert Tower(2, 1) == 4 && Tower(1, 1) == 1;
    assert Tower(2, 2) == 16 && Tower(1, 2) == 1;
    assert Tower(2, 3) == 256 && Tower(1, 3) == 1;
    assert Tower(2, 4) == 65536 && Tower(1, 4) == 1;
    assert Tower(2, 5) == 4294967296 && Tower(1, 5) == 1;
    assert Tower(2, 6) == 18446744073709551616 && Tower(1, 6) == 1;
    assert Tower(2, 7) == 340282366920938463463374607431768211456 && Tower(1, 7) == 1;
  }

  lemma Row2(j: nat)
    requires j <= 7
    ensures RoundsDown(DEGRADE_FACTOR[2][j], Tower(4, j), Tower(3, j))
  {
    assert Tower(4, 1) == 16 && Tower(3, 1) == 9;
    assert Tower(4, 2) == 256 && Tower(3, 2) == 81;
    assert Tower(4, 3) == 65536 && Tower(3, 3) == 6561;
    assert Tower(4, 4) == 4294967296 && Tower(3, 4) == 43046721;
    assert Tower(4, 5) == 18446744073709551616 && Tower(3, 5) == 1853020188851841;
    assert Tower(4, 6) == 340282366920938463463374607431768211456 && Tower(3, 6) == 3433683820292512484657849089281;
    assert Tower(4, 7) == 115792089237316195423570985008687907853269984665640564039457584007913129639936 && Tower(3, 7) == 11790184577738583171520872861412518665678211592275841109096961;
  }

  lemma Row3(j: nat)
    requires j <= 7
    ensures RoundsDown(DEGRADE_FACTOR[3][j], Tower(8, j), Tower(7, j))
  {
    assert Tower(8, 1) == 64 && Tower(7, 1) == 49;
    assert Tower(8, 2) == 4096 && Tower(7, 2) == 2401;
    assert Tower(8, 3) == 16777216 && Tower(7, 3) == 5764801;
    assert Tower(8, 4) == 281474976710656 && Tower(7, 4) == 33232930569601;
    assert Tower(8, 5) == 79228162514264337593543950336 && Tower(7, 5) == 1104427674243920646305299201;
    assert Tower(8, 6) == 6277101735386680763835789423207666416102355444464034512896 && Tower(7, 6) == 1219760487635835700138573862562971820755615294131238401;
    assert Tower(8, 7) == 39402006196394479212279040100143613805079739270465446667948293404245721771497210611414266254884915640806627990306816 && Tower(7, 7) == 1487815647197611695910312681741273570332356717154798949898498305086387315423300999654757561928633305897036801;
  }

  lemma Row4(j: nat)
    requires j <= 7
    ensures RoundsDown(DEGRADE_FACTOR[4][j], Tower(16, j), Tower(15, j))
  {
    assert Tower(16, 1) == 256 && Tower(15, 1) == 225;
    assert Tower(16, 2) == 65536 && Tower(15, 2) == 50625;
    assert Tower(16, 3) == 4294967296 && Tower(15, 3) == 2562890625;
    assert Tower(16, 4) == 18446744073709551616 && Tower(15, 4) == 6568408355712890625;
    assert Tower(16, 5) == 340282366920938463463374607431768211456 && Tower(15, 5) == 43143988327398919500410556793212890625;
    assert Tower(16, 6) == 115792089237316195423570985008687907853269984665640564039457584007913129639936 && Tower(15, 6) == 1861403728794734215467410604755702820123364205073812627233564853668212890625;
    assert Tower(16, 7) == 13407807929942597099574024998205846127479365820592393377723561443721764030073546976801874298166903427690031858186486050853753882811946569946433649006084096 && Tower(15, 7) == 3464823841570940447511989197632600142600357270938450628136751668972148475371287127017463688665854485527890158948205456823643544339574873447418212890625;
  }

  /** Every table entry is the true factor `((2^idx - 1) / 2^idx)^(2^j)` in 128ths, rounded
      down. */
  lemma TableRoundsDown(idx: nat, j: nat)
    requires 1 <= idx < CPU_LOAD_IDX_MAX && j <= 7
    ensures RoundsDown(Factor(idx, j), IPow(Pow2(idx), Pow2(j)), IPow(Pow2(idx) - 1, Pow2(j)))
  {
    hide RoundsDown, IPow, Tower, Pow2, Factor;
    TowerIsPower(Pow2(idx), j);
    TowerIsPower(Pow2(idx) - 1, j);
    Row(idx, j);
  }

  lemma Row(idx: nat, j: nat)
    requires 1 <= idx < CPU_LOAD_IDX_MAX && j <= 7
    ensures RoundsDown(Factor(idx, j), Tower(Pow2(idx), j), Tower(Pow2(idx) - 1, j))
  {
    assert Pow2(1) == 2 && Pow2(2) == 4;
    assert Pow2(3) == 8 && Pow2(4) == 16;
    hide RoundsDown, Tower, Pow2;
    if idx == 1 { Row1(j); } else if idx == 2 { Row2(j); } else if idx == 3 { Row3(j); } else { Row4(j); }
  }

  /** In particular no entry the loop can use is more than that. */
  lemma TableUnderestimates(idx: nat, j: nat)
    requires 2 <= idx < CPU_LOAD_IDX_MAX && j < 7
    ensures Underestimates(Factor(idx, j), IPow(Pow2(idx), Pow2(j)), IPow(Pow2(idx) - 1, Pow2(j)))
  {
    hide IPow, Pow2;
    TableRoundsDown(idx, j);
  }

  /** A load is taken to be zero from the first power of two ticks on whose factor is less than
      a 128th. */
  lemma ZeroLimitIsFirstZero(idx: nat) returns (j: nat)
    requires 1 <= idx < CPU_LOAD_IDX_MAX
    ensures 1 <= j <= 7 && DEGRADE_ZERO_TICKS[idx] == Pow2(j)
    ensures Factor(idx, j) == 0 < Factor(idx, j - 1)
  {
    j := if idx == 1 then 3 else idx + 3;
  }

  lemma DegradeUnder(load: nat, factor: nat, b: nat, c: nat)
    requires Underestimates(factor, b, c)
    ensures b * Degrade(load, factor) <= c * load
  {
    var d := Degrade(load, factor);
    TimesIsProduct(load, factor);
    Dominate(b, 128 * d, load * factor);
    Associate(factor, b, load);
    Dominate(load, factor * b, 128 * c);
  }

  lemma Dominate(k: nat, u: int, v: int)
    requires u <= v
    ensures k * u <= k * v
  {
  }

  /** `decayed` is at most `load * (c / b)^ticks`. */
  predicate Under(decayed: nat, load: nat, b: nat, c: nat, ticks: nat) {
    IPow(b, ticks) * decayed <= IPow(c, ticks) * load
  }

  lemma UnderCompose(decayed: nat, next: nat, load: nat, b: nat, c: nat, m: nat, n: nat)
    requires Under(decayed, next, b, c, m) && Under(next, load, b, c, n)
    ensures Under(decayed, load, b, c, m + n)
  {
    IPowAdd(b, m, n);
    IPowAdd(c, m, n);
    Chain(IPow(b, m), IPow(c, m), IPow(b, n), IPow(c, n), decayed, next, load);
  }

  lemma Chain(B: nat, C: nat, b: nat, c: nat, decayed: nat, next: nat, load: nat)
    requires B * decayed <= C * next && b * next <= c * load
    ensures (B * b) * decayed <= (C * c) * load
  {
    Dominate(b, B * decayed, C * next);
    Associate(b, B, decayed);
    Associate(b, C, next);
    Dominate(C, b * next, c * load);
    Associate(C, b, next);
    Associate(C, c, load);
  }

  /** One bit of the count. */
  lemma DecayFromBit(load: nat, missed: nat, idx: nat, j: nat)
    requires idx < CPU_LOAD_IDX_MAX && 0 < missed && j <= 7 && missed < Pow2(7 - j)
    ensures j < 7 && missed / 2 < Pow2(7 - (j + 1)) && Pow2(j + 1) == 2 * Pow2(j)
    ensures DecayFrom(load, missed, idx, j)
            == DecayFrom(if missed % 2 == 1 then Degrade(load, Factor(idx, j)) else load, missed / 2, idx, j + 1)
  {
    BitsLeft(missed, j);
    hide Degrade, Factor;
  }

  lemma {:induction false} DecayFromUnder(load: nat, missed: nat, idx: nat, j: nat)
    requires 2 <= idx < CPU_LOAD_IDX_MAX && j <= 7 && missed < Pow2(7 - j)
    ensures Under(DecayFrom(load, missed, idx, j), load, Pow2(idx), Pow2(idx) - 1, Times(Pow2(j), missed))
    decreases missed
  {
    hide Under, Degrade, Pow2, Times, Factor, DecayFrom, IPow;
    if missed == 0 {
      NothingMissed(load, idx, j);
    } else {
      DecayFromBit(load, missed, idx, j);
      TimesHalves(Pow2(j), missed);
      var h := missed / 2;
      if missed % 2 == 1 {
        var next := Degrade(load, Factor(idx, j));
        OneBitUnder(load, idx, j);
        DecayFromUnder(next, h, idx, j + 1);
        UnderCompose(DecayFrom(load, missed, idx, j), next, load, Pow2(idx), Pow2(idx) - 1, Times(Pow2(j + 1), h), Pow2(j));
      } else {
        DecayFromUnder(load, h, idx, j + 1);
      }
    }
  }

  lemma NothingMissed(load: nat, idx: nat, j: nat)
    requires idx < CPU_LOAD_IDX_MAX && j <= 7
    ensures DecayFrom(load, 0, idx, j) == load
    ensures Under(load, load, Pow2(idx), Pow2(idx) - 1, Times(Pow2(j), 0))
  {
    hide Pow2;
  }

  lemma BitsLeft(missed: nat, j: nat)
    requires 0 < missed && j <= 7 && missed < Pow2(7 - j)
    ensures j < 7 && missed / 2 < Pow2(7 - (j + 1))
  {
  }

  lemma OneBitUnder(load: nat, idx: nat, j: nat)
    requires 2 <= idx < CPU_LOAD_IDX_MAX && j < 7
    ensures Under(Degrade(load, Factor(idx, j)), load, Pow2(idx), Pow2(idx) - 1, Pow2(j))
  {
    hide Degrade, IPow, Underestimates, Factor, Pow2;
    TableUnderestimates(idx, j);
    DegradeUnder(load, Factor(idx, j), IPow(Pow2(idx), Pow2(j)), IPow(Pow2(idx) - 1, Pow2(j)));
  }

  lemma TimesHalves(e: nat, m: nat)
    ensures Times(e, m) == Times(2 * e, m / 2) + (if m % 2 == 1 then e else 0)
  {
    TimesIsProduct(e, m);
    TimesIsProduct(2 * e, m / 2);
    Halve(e, m);
    assert (e + e) * (m / 2) == (2 * e) * (m / 2);
  }

  /** The decay never overestimates `load * ((2^idx - 1) / 2^idx)^missed`, for every load
      (even one whose products leave the register), every count and every index. */
  lemma DecayNeverOverestimates(load: nat, missed: nat, idx: nat)
    requires idx < CPU_LOAD_IDX_MAX
    ensures Under(Decay(load, missed, idx), load, Pow2(idx), Pow2(idx) - 1, missed)
  {
    if missed == 0 || missed >= DEGRADE_ZERO_TICKS[idx] {
    } else if idx == 1 {
      hide Under;
      ShiftUnder(load, missed);
    } else {
      hide Under, Pow2;
      assert Pow2(0) == 1 by {
        PowerZero();
      }
      TimesIsProduct(1, missed);
      SevenBits(idx, missed);
      DecayFromUnder(load, missed, idx, 0);
    }
  }

  lemma PowerZero()
    ensures Pow2(0) == 1
  {
  }

  lemma ShiftUnder(load: nat, missed: nat)
    ensures Under(ShiftRight(load, missed), load, Pow2(1), Pow2(1) - 1, missed)
  {
    ShiftIsQuotient(load, missed);
    TimesIsProduct(Pow2(missed), ShiftRight(load, missed));
    PowersOfTwo(missed);
    PowersOfOne(missed);
  }

  lemma {:induction false} PowersOfTwo(n: nat)
    ensures IPow(Pow2(1), n) == Pow2(n)
  {
    if n > 0 {
      PowersOfTwo(n - 1);
    }
  }

  lemma {:induction false} PowersOfOne(n: nat)
    ensures IPow(Pow2(1) - 1, n) == 1
  {
    if n > 0 {
      PowersOfOne(n - 1);
    }
  }

  // ---------------------------------------------------------------------------
  // never far below
  // ---------------------------------------------------------------------------

  /** What one tick leaves, exactly. */
  function Remaining(idx: nat): real
    requires idx < CPU_LOAD_IDX_MAX
  {
    (Pow2(idx) - 1) as real / Pow2(idx) as real
  }

  lemma {:induction false} PowerOfQuotient(b: nat, c: nat, n: nat, p: real)
    requires b > 0 && p * b as real == c as real
    ensures IPow(b, n) > 0
    ensures RPow(p, n) * IPow(b, n) as real == IPow(c, n) as real
  {
    if n > 0 {
      assert RPow(p, n) == p * RPow(p, n - 1);
      NextPower(b, n);
      NextPower(c, n);
      hide RPow, IPow;
      PowerOfQuotient(b, c, n - 1, p);
      QuotientTimes(p, RPow(p, n - 1), b as real, c as real, IPow(b, n - 1) as real, IPow(c, n - 1) as real);
    }
  }

  lemma NextPower(a: nat, n: nat)
    requires n > 0
    ensures IPow(a, n) as real == a as real * IPow(a, n - 1) as real
    ensures a > 0 && IPow(a, n - 1) > 0 ==> IPow(a, n) > 0
  {
  }

  lemma QuotientTimes(p: real, q: real, b: real, c: real, u: real, v: real)
    requires p * b == c && q * u == v
    ensures (p * q) * (b * u) == c * v
  {
    assert (p * q) * (b * u) == (p * b) * (q * u);
  }

  lemma RoundsDownInReals(f: nat, b: nat, c: nat, r: real)
    requires RoundsDown(f, b, c) && b > 0 && r * b as real == c as real
    ensures f as real <= 128.0 * r < f as real + 1.0
  {
    assert (f * b) as real == f as real * b as real;
    Between(f as real, (f * b) as real, b as real, c as real, r);
  }

  lemma Between(f: real, fb: real, b: real, c: real, r: real)
    requires b > 0.0 && fb == f * b && fb <= 128.0 * c < fb + b && r * b == c
    ensures f <= 128.0 * r < f + 1.0
  {
    AddOne(f, b);
    Pull(128.0, r, b);
    Unscale(f, 128.0 * r, b);
    Unscale(128.0 * r, f + 1.0, b);
  }

  lemma AddOne(u: real, v: real)
    ensures (u + 1.0) * v == u * v + v
  {
  }

  lemma Pull(u: real, v: real, w: real)
    ensures (u * v) * w == u * (v * w)
  {
  }

  lemma Unscale(u: real, v: real, b: real)
    requires b > 0.0
    ensures u * b <= v * b ==> u <= v
    ensures u * b < v * b ==> u < v
  {
    if u > v {
      assert (u - v) * b > 0.0;
    }
  }

  lemma RemainingPower(idx: nat, n: nat)
    requires idx < CPU_LOAD_IDX_MAX
    ensures IPow(Pow2(idx), n) > 0
    ensures RPow(Remaining(idx), n) * IPow(Pow2(idx), n) as real == IPow(Pow2(idx) - 1, n) as real
  {
    hide RPow, IPow, Pow2;
    Whole((Pow2(idx) - 1) as real, Pow2(idx) as real);
    PowerOfQuotient(Pow2(idx), Pow2(idx) - 1, n, Remaining(idx));
  }

  lemma Whole(u: real, v: real)
    requires v > 0.0
    ensures (u / v) * v == u
  {
  }

  /** The table in reals. */
  lemma FactorNear(idx: nat, j: nat)
    requires 1 <= idx < CPU_LOAD_IDX_MAX && j <= 7
    ensures var f := Factor(idx, j);
      f as real <= 128.0 * RPow(Remaining(idx), Pow2(j)) < f as real + 1.0
  {
    hide IPow, Pow2, RPow, RoundsDown, Remaining, Factor;
    TableRoundsDown(idx, j);
    RemainingPower(idx, Pow2(j));
    RoundsDownInReals(Factor(idx, j), IPow(Pow2(idx), Pow2(j)), IPow(Pow2(idx) - 1, Pow2(j)), RPow(Remaining(idx), Pow2(j)));
  }

  lemma RemainingIsFraction(idx: nat)
    requires idx < CPU_LOAD_IDX_MAX
    ensures 0.0 <= Remaining(idx) <= 1.0
  {
  }

  /** What one step of the decay may lose. */
  function Loss(load: nat): real {
    load as real / 128.0 + 1.0
  }

  /** A product that fits the register is divided exactly, rounded down; one that does not
      loses its high part. */
  lemma DegradeExactIff(load: nat, factor: nat)
    ensures Degrade(load, factor) == load * factor / 128 <==> load * factor < WORD_SIZE
  {
    TimesIsProduct(load, factor);
    var v := load * factor;
    assert v >= WORD_SIZE ==> v % 0x1_0000_0000 + 0x1_0000_0000 <= v;
  }

  lemma OneBitNear(load: nat, idx: nat, j: nat)
    requires 1 <= idx < CPU_LOAD_IDX_MAX && j <= 7 && load * 128 < WORD_SIZE
    ensures var next := Degrade(load, Factor(idx, j));
      && next <= load
      && next as real >= load as real * RPow(Remaining(idx), Pow2(j)) - Loss(load)
  {
    hide RPow, Degrade, Remaining, Pow2, Loss, Factor;
    RemainingIsFraction(idx);
    RPowUnit(Remaining(idx), Pow2(j));
    FactorNear(idx, j);
    DegradeNear(load, Factor(idx, j), RPow(Remaining(idx), Pow2(j)));
  }

  lemma DegradeNear(load: nat, f: nat, P: real)
    requires load * 128 < WORD_SIZE && f as real <= 128.0 * P < f as real + 1.0 && P <= 1.0
    ensures Degrade(load, f) <= load && Degrade(load, f) as real >= load as real * P - Loss(load)
  {
    hide Degrade;
    Smaller(load, f);
    DegradeExactIff(load, f);
    Unrounded(load, f, P);
  }

  lemma Smaller(load: nat, f: nat)
    requires f <= 128
    ensures load * f <= load * 128
  {
  }

  lemma Unrounded(load: nat, f: nat, P: real)
    requires f <= 128 && 128.0 * P < f as real + 1.0
    ensures load * f / 128 <= load
    ensures (load * f / 128) as real >= load as real * P - Loss(load)
  {
    Smaller(load, f);
    var q := load * f / 128;
    assert 128 * q + 128 > load * f;
    assert (load * f) as real == load as real * f as real;
    NearProduct(q as real, load as real, f as real, P);
  }

  lemma NearProduct(q: real, load: real, f: real, P: real)
    requires load >= 0.0 && 128.0 * q + 128.0 > load * f && 128.0 * P < f + 1.0
    ensures q >= load * P - (load / 128.0 + 1.0)
  {
    MultiplyBoth(128.0 * P, f + 1.0, load);
    AddOne(f, load);
    Pull(128.0, P, load);
    PartOf(q, load, load * f, load * P);
  }

  lemma PartOf(q: real, load: real, lf: real, lp: real)
    requires 128.0 * q + 128.0 > lf && 128.0 * lp <= lf + load
    ensures q >= lp - (load / 128.0 + 1.0)
  {
  }

  lemma MultiplyBoth(u: real, v: real, k: real)
    requires u <= v && k >= 0.0
    ensures k * u <= k * v
  {
  }

  function Bits(n: nat): nat {
    if n == 0 then 0 else n % 2 + Bits(n / 2)
  }

  /** Each bit of the count loses at most what one step may. */
  lemma {:induction false} DecayFromNear(load: nat, missed: nat, idx: nat, j: nat, most: nat)
    requires 1 <= idx < CPU_LOAD_IDX_MAX && j <= 7 && missed < Pow2(7 - j)
    requires load <= most && most * 128 < WORD_SIZE
    ensures DecayFrom(load, missed, idx, j) as real
            >= load as real * RPow(Remaining(idx), Times(Pow2(j), missed)) - Bits(missed) as real * Loss(most)
    decreases missed
  {
    hide Degrade, Pow2, Remaining, Times, RPow, Loss, Factor, DecayFrom, Bits;
    BitsHalve(missed);
    if missed == 0 {
      NoTicks(Remaining(idx), Pow2(j));
      NothingMissed(load, idx, j);
      NothingLost(load as real, Loss(most));
    } else {
      DecayFromBit(load, missed, idx, j);
      TimesHalves(Pow2(j), missed);
      var h, m, n := missed / 2, Pow2(j), Times(Pow2(j + 1), missed / 2);
      if missed % 2 == 1 {
        var next := Degrade(load, Factor(idx, j));
        OneBitNear(load, idx, j);
        DecayFromNear(next, h, idx, j + 1, most);
        OddRound(next, load, most, idx, m, n, Bits(h), DecayFrom(next, h, idx, j + 1));
        assert Times(Pow2(j), missed) == n + m && Bits(missed) == Bits(h) + 1;
      } else {
        DecayFromNear(load, h, idx, j + 1, most);
        assert Times(Pow2(j), missed) == n && Bits(missed) == Bits(h);
      }
    }
  }

  lemma BitsHalve(n: nat)
    ensures n == 0 ==> Bits(n) == 0
    ensures n > 0 ==> Bits(n) == Bits(n / 2) + n % 2
  {
  }

  lemma OddRound(next: nat, load: nat, most: nat, idx: nat, m: nat, n: nat, bits: nat, decayed: nat)
    requires idx < CPU_LOAD_IDX_MAX && load <= most
    requires next as real >= load as real * RPow(Remaining(idx), m) - Loss(load)
    requires decayed as real >= next as real * RPow(Remaining(idx), n) - bits as real * Loss(most)
    ensures decayed as real >= load as real * RPow(Remaining(idx), n + m) - (bits + 1) as real * Loss(most)
  {
    hide RPow, Remaining, Loss;
    LossGrows(load, most);
    RemainingIsFraction(idx);
    RPowUnit(Remaining(idx), n);
    RPowAdd(Remaining(idx), m, n);
    Pull(load as real, RPow(Remaining(idx), m), RPow(Remaining(idx), n));
    OneMoreBit(next as real, load as real * RPow(Remaining(idx), m), RPow(Remaining(idx), n), Loss(most), bits as real,
               decayed as real);
  }

  lemma NothingLost(load: real, loss: real)
    ensures load * 1.0 - 0.0 * loss == load
  {
  }

  lemma NoTicks(p: real, e: nat)
    ensures RPow(p, Times(e, 0)) == 1.0
  {
  }

  lemma LossGrows(load: nat, most: nat)
    requires load <= most
    ensures 0.0 <= Loss(load) <= Loss(most) && Loss(load) == load as real / 128.0 + 1.0
  {
  }

  lemma OneMoreBit(next: real, first: real, q: real, loss: real, bits: real, decayed: real)
    requires next >= first - loss && 0.0 <= q <= 1.0 && loss >= 0.0
    requires decayed >= next * q - bits * loss
    ensures decayed >= first * q - (bits + 1.0) * loss
  {
    MultiplyBoth(first - loss, next, q);
    Subtract(q, first, loss);
    MultiplyBoth(q, 1.0, loss);
    AddOne(bits, loss);
    AddUp(decayed, next * q, first * q, loss * q, loss, bits * loss, (bits + 1.0) * loss);
  }

  lemma AddUp(decayed: real, later: real, first: real, lost: real, loss: real, before: real, after: real)
    requires decayed >= later - before && later >= first - lost && lost <= loss && after == before + loss
    ensures decayed >= first - after
  {
  }

  lemma Subtract(q: real, u: real, v: real)
    ensures q * (u - v) == u * q - v * q
  {
  }

  /** Nor is it far below: at most one step's loss for every bit of the count, for loads whose
      products fit the register. */
  lemma DecayNear(load: nat, missed: nat, idx: nat)
    requires idx < CPU_LOAD_IDX_MAX && load * 128 < WORD_SIZE
    ensures Decay(load, missed, idx) as real
            >= load as real * RPow(Remaining(idx), missed) - Bits(missed) as real * Loss(load)
  {
    hide DecayFrom, Pow2, Loss, Remaining, ShiftRight, Times, RPow, Bits;
    if missed == 0 {
      AtOnce(load, idx);
    } else if missed >= DEGRADE_ZERO_TICKS[idx] {
      ZeroNear(load, missed, idx);
    } else if idx == 1 {
      ShiftNear(load, missed);
    } else {
      SevenBits(idx, missed);
      LoopNear(load, missed, idx);
    }
  }

  lemma AtOnce(load: nat, idx: nat)
    requires idx < CPU_LOAD_IDX_MAX
    ensures load as real >= load as real * RPow(Remaining(idx), 0) - Bits(0) as real * Loss(load)
  {
    hide Loss, Remaining;
    NothingLost(load as real, Loss(load));
  }

  lemma LoopNear(load: nat, missed: nat, idx: nat)
    requires 1 <= idx < CPU_LOAD_IDX_MAX && load * 128 < WORD_SIZE && missed < Pow2(7)
    ensures DecayFrom(load, missed, idx, 0) as real
            >= load as real * RPow(Remaining(idx), missed) - Bits(missed) as real * Loss(load)
  {
    hide DecayFrom, Loss, Remaining, Times, RPow, Bits, Pow2;
    PowerZero();
    TimesIsProduct(Pow2(0), missed);
    DecayFromNear(load, missed, idx, 0, load);
    assert Times(Pow2(0), missed) == missed;
  }

  /** From the zero limit on less than a 128th is left. */
  lemma ZeroNear(load: nat, missed: nat, idx: nat)
    requires idx < CPU_LOAD_IDX_MAX && missed > 0 && missed >= DEGRADE_ZERO_TICKS[idx]
    ensures load as real * RPow(Remaining(idx), missed) <= Bits(missed) as real * Loss(load)
  {
    hide Bits, RPow, Remaining, Loss, Pow2;
    SomeBit(missed);
    LittleIsLeft(missed, idx);
    LossGrows(load, load);
    LittleIsLost(load as real, RPow(Remaining(idx), missed), Loss(load), Bits(missed) as real);
  }

  lemma LittleIsLost(load: real, r: real, loss: real, bits: real)
    requires load >= 0.0 && r <= 1.0 / 128.0 && load / 128.0 <= loss && bits >= 1.0
    ensures load * r <= bits * loss
  {
    MultiplyBoth(r, 1.0 / 128.0, load);
    MultiplyBoth(1.0, bits, loss);
  }

  lemma LittleIsLeft(missed: nat, idx: nat)
    requires idx < CPU_LOAD_IDX_MAX && missed > 0 && missed >= DEGRADE_ZERO_TICKS[idx]
    ensures RPow(Remaining(idx), missed) <= 1.0 / 128.0
  {
    if idx == 0 {
      assert Remaining(0) == 0.0;
    } else {
      hide RPow, Remaining, Pow2, Factor;
      var j := ZeroLimitIsFirstZero(idx);
      var p, rest: nat := Remaining(idx), missed - Pow2(j);
      FactorNear(idx, j);
      RPowAdd(p, Pow2(j), rest);
      RemainingIsFraction(idx);
      RPowUnit(p, rest);
      RPowUnit(p, Pow2(j));
      MultiplyBoth(RPow(p, rest), 1.0, RPow(p, Pow2(j)));
    }
  }

  lemma {:induction false} SomeBit(n: nat)
    requires n > 0
    ensures Bits(n) >= 1
  {
    if n % 2 == 0 {
      SomeBit(n / 2);
    }
  }

  lemma ShiftNear(load: nat, missed: nat)
    requires missed > 0
    ensures ShiftRight(load, missed) as real >= load as real * RPow(Remaining(1), missed) - Bits(missed) as real * Loss(load)
  {
    hide ShiftRight, RPow, IPow, Bits, Pow2, Remaining, Loss, Times;
    SomeBit(missed);
    LossGrows(load, load);
    LessThanOneLost(load, missed);
    AtLeastOne(Bits(missed) as real, Loss(load));
  }

  lemma AtLeastOne(bits: real, loss: real)
    requires bits >= 1.0 && loss >= 1.0
    ensures bits * loss >= 1.0
  {
    MultiplyBoth(1.0, bits, loss);
  }

  lemma LessThanOneLost(load: nat, missed: nat)
    ensures ShiftRight(load, missed) as real + 1.0 >= load as real * RPow(Remaining(1), missed)
  {
    hide ShiftRight, RPow, IPow, Pow2, Remaining, Times;
    ShiftIsQuotient(load, missed);
    RemainingPower(1, missed);
    PowersOfTwo(missed);
    PowersOfOne(missed);
    TimesIsProduct(Pow2(missed), ShiftRight(load, missed) + 1);
    Halved(load, ShiftRight(load, missed), Pow2(missed), RPow(Remaining(1), missed));
  }

  lemma Halved(load: nat, q: nat, b: nat, r: real)
    requires b > 0 && r * b as real == 1.0 && load < b * (q + 1)
    ensures q as real + 1.0 >= load as real * r
  {
    assert (b * (q + 1)) as real == (q as real + 1.0) * b as real;
    HalvedReal(load as real, q as real + 1.0, b as real, r);
  }

  lemma HalvedReal(load: real, q: real, b: real, r: real)
    requires b > 0.0 && r * b == 1.0 && load < q * b
    ensures q >= load * r
  {
    assert (load * r) * b == load * (r * b);
    Unscale(load * r, q, b);
  }
}
