/** Fixed-point arithmetic of the load average: the power by repeated squaring, the
    one-step exponential average and its n-step shortcut.

    The C code works on a 32-bit `unsigned long`, so every operation that can leave
    that range is reduced by `Word`.  The exact value of a fixed-point number `x` with
    scale `F` is the real `x / F`. */
module FixedPoint {

  const WORD_SIZE := 0x1_0000_0000
  const FSHIFT := 11
  const FIXED_1 := 2048
  const EXP_1 := 1884
  const EXP_5 := 2014
  const EXP_15 := 2037

  /** What a 32-bit register keeps of `v`.  (The moduli are spelled as literals here and
      below: the solver treats division by a literal as linear.) */
  function Word(v: nat): nat {
    v % 0x1_0000_0000
  }

  function Pow2(k: nat): nat
    ensures Pow2(k) >= 1
  {
    if k == 0 then 1 else 2 * Pow2(k - 1)
  }

  /** `a * b` on the register. */
  function WordTimes(a: nat, b: nat): nat {
    Word(Times(a, b))
  }

  /** The product `a * b`, by repeated addition: proofs that need no multiplication law
      then meet no nonlinear term. */
  function Times(a: nat, b: nat): nat {
    if b == 0 then 0 else Times(a, b - 1) + a
  }

  lemma {:induction false} TimesIsProduct(a: nat, b: nat)
    ensures Times(a, b) == a * b
  {
    if b > 0 {
      TimesIsProduct(a, b - 1);
    }
  }

  function ShiftRight(v: nat, bits: nat): nat {
    if bits == 0 then v else ShiftRight(v / 2, bits - 1)
  }

  /** A right shift divides by the power of two and drops the remainder. */
  lemma {:induction false} ShiftIsQuotient(v: nat, bits: nat)
    ensures Times(Pow2(bits), ShiftRight(v, bits)) <= v < Times(Pow2(bits), ShiftRight(v, bits) + 1)
  {
    if bits > 0 {
      ShiftIsQuotient(v / 2, bits - 1);
      TimesDouble(Pow2(bits - 1), ShiftRight(v, bits));
      TimesDouble(Pow2(bits - 1), ShiftRight(v, bits) + 1);
    } else {
      TimesIsProduct(1, v);
    }
  }

  lemma TimesDouble(a: nat, b: nat)
    ensures Times(2 * a, b) == 2 * Times(a, b)
  {
  }

  function RPow(p: real, n: nat): real {
    if n == 0 then 1.0 else p * RPow(p, n - 1)
  }

  function Abs(r: real): real {
    if r < 0.0 then -r else r
  }

  lemma {:induction false} Pow2Monotone(j: nat, k: nat)
    requires j <= k
    ensures Pow2(j) <= Pow2(k)
  {
    if j < k {
      Pow2Monotone(j, k - 1);
    }
  }

  lemma {:induction false} Pow2Add(j: nat, k: nat)
    ensures Pow2(j + k) == Pow2(j) * Pow2(k)
  {
    if j > 0 {
      Pow2Add(j - 1, k);
      assert Pow2(j + k) == 2 * Pow2(j - 1 + k);
      assert 2 * (Pow2(j - 1) * Pow2(k)) == (2 * Pow2(j - 1)) * Pow2(k);
    }
  }

  lemma {:induction false} RPowUnit(p: real, n: nat)
    requires 0.0 <= p <= 1.0
    ensures 0.0 <= RPow(p, n) <= 1.0
  {
    if n > 0 {
      RPowUnit(p, n - 1);
      Scale(p, RPow(p, n - 1), 1.0);
    }
  }

  lemma {:induction false} RPowAdd(p: real, m: nat, n: nat)
    ensures RPow(p, m + n) == RPow(p, m) * RPow(p, n)
  {
    if m > 0 {
      RPowAdd(p, m - 1, n);
      assert RPow(p, m + n) == p * RPow(p, m - 1 + n);
      assert p * (RPow(p, m - 1) * RPow(p, n)) == (p * RPow(p, m - 1)) * RPow(p, n);
    }
  }

  /** Multiplying by a factor in [0, 1] keeps a bound. */
  lemma Scale(p: real, v: real, bound: real)
    requires 0.0 <= p <= 1.0
    requires -bound <= v <= bound
    ensures -bound <= p * v <= bound
    ensures 0.0 <= v ==> 0.0 <= p * v <= v
  {
    assert bound >= 0.0;
    if v >= 0.0 {
      assert p * v <= 1.0 * v;
    } else {
      assert p * (-v) <= 1.0 * (-v);
      assert p * v == -(p * (-v));
    }
  }

  // ---------------------------------------------------------------------------
  // fixed_power_int
  // ---------------------------------------------------------------------------

  /** One rounded product: multiply, add half a unit, shift right. */
  function MulRound(a: nat, b: nat, fracBits: nat): nat
    requires fracBits >= 1
  {
    ShiftRight(Word(WordTimes(a, b) + Pow2(fracBits - 1)), fracBits)
  }

  /** The value `fixed_power_int` is left with after processing the bits of `n`, from a
      partial `result` and the current squared base `x`. */
  function PowerFrom(result: nat, x: nat, fracBits: nat, n: nat): nat
    requires fracBits >= 1
    decreases n
  {
    if n == 0 then
      result
    else
      PowerFrom(if n % 2 == 1 then MulRound(result, x, fracBits) else result,
                MulRound(x, x, fracBits), fracBits, n / 2)
  }

  function FixedPower(x: nat, fracBits: nat, n: nat): nat
    requires 1 <= fracBits < 32
  {
    PowerFrom(Pow2(fracBits), x, fracBits, n)
  }

  /** core.c's loop: the base is squared only while bits of `n` remain. */
  method FixedPowerInt(x0: nat, fracBits: nat, n0: nat) returns (result: nat)
    requires 1 <= fracBits < 32
    ensures result == FixedPower(x0, fracBits, n0)
  {
    var x: nat, n: nat := x0, n0;
    result := Pow2(fracBits);
    if n != 0 {
      while true
        invariant n != 0
        invariant PowerFrom(result, x, fracBits, n) == FixedPower(x0, fracBits, n0)
        decreases n
      {
        ghost var result', x', n' := result, x, n;
        if n % 2 == 1 {
          result := WordTimes(result, x);
          result := Word(result + Pow2(fracBits - 1));
          result := ShiftRight(result, fracBits);
        }
        n := n / 2;
        assert PowerFrom(result', x', fracBits, n') == PowerFrom(result, MulRound(x', x', fracBits), fracBits, n);
        if n == 0 {
          break;
        }
        x := WordTimes(x, x);
        x := Word(x + Pow2(fracBits - 1));
        x := ShiftRight(x, fracBits);
      }
    }
  }

  /** Below full scale a rounded product neither wraps nor exceeds full scale, and it is
      within half a unit of the exact product. */
  lemma MulRoundNear(a: nat, b: nat, fracBits: nat)
    requires fracBits >= 1 && 2 * fracBits + 1 <= 32
    requires a <= Pow2(fracBits) && b <= Pow2(fracBits)
    ensures Times(a, b) + Pow2(fracBits - 1) < WORD_SIZE
    ensures MulRound(a, b, fracBits) <= Pow2(fracBits)
    ensures Abs(MulRound(a, b, fracBits) as real - Times(a, b) as real / Pow2(fracBits) as real) <= 0.5
  {
    hide Times, ShiftRight, Pow2, Abs;
    ProductBound(a, b, Pow2(fracBits));
    FullScaleFits(fracBits);
    RoundedShift(Times(a, b), fracBits);
  }

  lemma RoundedShift(product: nat, fracBits: nat)
    requires fracBits >= 1 && product <= Times(Pow2(fracBits), Pow2(fracBits))
    ensures var q := ShiftRight(product + Pow2(fracBits - 1), fracBits);
            q <= Pow2(fracBits) && Abs(q as real - product as real / Pow2(fracBits) as real) <= 0.5
  {
    var half := Pow2(fracBits - 1);
    ShiftIsQuotient(product + half, fracBits);
    RoundNear(product, Pow2(fracBits), half, ShiftRight(product + half, fracBits));
  }

  lemma ProductBound(a: nat, b: nat, full: nat)
    requires a <= full && b <= full
    ensures Times(a, b) <= Times(full, full)
  {
    TimesMonotone(a, full, b);
    TimesMonotoneRight(full, b, full);
  }

  lemma FullScaleFits(fracBits: nat)
    requires fracBits >= 1 && 2 * fracBits + 1 <= 32
    ensures Times(Pow2(fracBits), Pow2(fracBits)) + Pow2(fracBits - 1) < WORD_SIZE
  {
    Pow2Add(fracBits, fracBits);
    TimesIsProduct(Pow2(fracBits), Pow2(fracBits));
    Pow2Monotone(2 * fracBits + 1, 32);
    Pow2Monotone(fracBits, 2 * fracBits);
    Pow2Of32();
  }

  lemma TimesMonotone(a: nat, a': nat, b: nat)
    requires a <= a'
    ensures Times(a, b) <= Times(a', b)
  {
  }

  lemma TimesMonotoneRight(a: nat, b: nat, b': nat)
    requires b <= b'
    ensures Times(a, b) <= Times(a, b')
  {
  }

  lemma Pow2Of32()
    ensures Pow2(32) == WORD_SIZE
  {
    assert Pow2(8) == 256;
    Pow2Add(8, 8);
    Pow2Add(16, 16);
  }

  /** Integer rounding to nearest, seen in the reals. */
  lemma RoundNear(product: nat, full: nat, half: nat, q: nat)
    requires full == 2 * half && half >= 1
    requires product <= Times(full, full)
    requires Times(full, q) <= product + half < Times(full, q + 1)
    ensures q <= full
    ensures Abs(q as real - product as real / full as real) <= 0.5
  {
    TimesReal(full, q);
    CancelNat(full, q, full + 1);
    RealRound(product as real, full as real, half as real, q as real,
              (product + half - Times(full, q)) as real, Times(full, q) as real);
  }

  lemma RealRound(P: real, F: real, H: real, Q: real, R: real, FQ: real)
    requires F == 2.0 * H && H > 0.0
    requires FQ == F * Q && P + H == FQ + R && 0.0 <= R < F
    ensures Abs(Q - P / F) <= 0.5
  {
  }

  lemma CancelNat(k: nat, a: nat, b: nat)
    requires Times(k, a) < Times(k, b)
    ensures a < b
  {
  }

  /** The real number that a fixed-point value at power `k` of `p` stands for. */
  function Exact(F: real, p: real, k: nat): real {
    F * RPow(p, k)
  }

  lemma ExactBounds(F: real, p: real, k: nat)
    requires F > 0.0 && 0.0 <= p <= 1.0
    ensures 0.0 <= Exact(F, p, k) <= F
    ensures Exact(F, p, k) / F == RPow(p, k)
  {
    RPowUnit(p, k);
    ScaleUp(F, RPow(p, k));
  }

  lemma ScaleUp(F: real, q: real)
    requires F > 0.0 && 0.0 <= q <= 1.0
    ensures 0.0 <= F * q <= F
    ensures F * q / F == q
  {
  }

  /** Errors add under multiplication of values at most full scale. */
  lemma ProductError(F: real, u: real, v: real, U: real, V: real, eu: real, ev: real)
    requires F > 0.0 && 0.0 <= v <= F && 0.0 <= U <= F
    requires Abs(u - U) <= eu && Abs(v - V) <= ev
    ensures Abs(u * v / F - U * V / F) <= eu + ev
  {
    var s, t := v / F, U / F;
    UnitRatio(v, F);
    UnitRatio(U, F);
    Scale(s, u - U, eu);
    Scale(t, v - V, ev);
    assert u * v / F == s * u;
    assert U * V / F == t * V;
    assert U * s == t * v;
    assert s * u - t * V == s * (u - U) + t * (v - V);
  }

  lemma UnitRatio(v: real, F: real)
    requires F > 0.0 && 0.0 <= v <= F
    ensures 0.0 <= v / F <= 1.0
  {
  }

  lemma MulRoundError(a: nat, b: nat, fracBits: nat, p: real, i: nat, j: nat, ea: real, eb: real)
    requires fracBits >= 1 && 2 * fracBits + 1 <= 32
    requires a <= Pow2(fracBits) && b <= Pow2(fracBits) && 0.0 <= p <= 1.0
    requires Abs(a as real - Exact(Pow2(fracBits) as real, p, i)) <= ea
    requires Abs(b as real - Exact(Pow2(fracBits) as real, p, j)) <= eb
    ensures Abs(MulRound(a, b, fracBits) as real - Exact(Pow2(fracBits) as real, p, i + j)) <= ea + eb + 0.5
  {
    var F := Pow2(fracBits) as real;
    var near := Times(a, b) as real / F;
    var exact := Exact(F, p, i + j);
    MulRoundNear(a, b, fracBits);
    TimesNear(a, b, F, p, i, j, ea, eb);
    Triangle(MulRound(a, b, fracBits) as real, near, exact, 0.5, ea + eb);
  }

  lemma TimesNear(a: nat, b: nat, F: real, p: real, i: nat, j: nat, ea: real, eb: real)
    requires F > 0.0 && b as real <= F && 0.0 <= p <= 1.0
    requires Abs(a as real - Exact(F, p, i)) <= ea && Abs(b as real - Exact(F, p, j)) <= eb
    ensures Abs(Times(a, b) as real / F - Exact(F, p, i + j)) <= ea + eb
  {
    PowersMultiply(F, p, a as real, b as real, i, j, ea, eb);
    TimesReal(a, b);
  }

  lemma PowersMultiply(F: real, p: real, u: real, v: real, i: nat, j: nat, eu: real, ev: real)
    requires F > 0.0 && 0.0 <= v <= F && 0.0 <= p <= 1.0
    requires Abs(u - Exact(F, p, i)) <= eu && Abs(v - Exact(F, p, j)) <= ev
    ensures Abs(u * v / F - Exact(F, p, i + j)) <= eu + ev
  {
    ExactBounds(F, p, i);
    ExactSum(F, p, i, j);
    ProductNear(F, u, v, Exact(F, p, i), Exact(F, p, j), Exact(F, p, i + j), eu, ev);
  }

  lemma ExactSum(F: real, p: real, i: nat, j: nat)
    ensures Exact(F, p, i) * Exact(F, p, j) == F * Exact(F, p, i + j)
  {
    var q, r, qr := RPow(p, i), RPow(p, j), RPow(p, i + j);
    assert qr == q * r by {
      RPowAdd(p, i, j);
    }
    ExactProduct(F, F * q, F * r, q, r, qr, F * qr);
  }

  lemma ExactProduct(F: real, U: real, V: real, q: real, r: real, qr: real, W: real)
    requires U == F * q && V == F * r && qr == q * r && W == F * qr
    ensures U * V == F * W
  {
    assert U * V == (F * q) * V;
    assert (F * q) * V == F * (q * V);
    assert q * V == q * (F * r);
    assert q * (F * r) == F * (q * r);
  }

  lemma ProductNear(F: real, u: real, v: real, U: real, V: real, W: real, eu: real, ev: real)
    requires F > 0.0 && 0.0 <= v <= F && 0.0 <= U <= F && U * V == F * W
    requires Abs(u - U) <= eu && Abs(v - V) <= ev
    ensures Abs(u * v / F - W) <= eu + ev
  {
    ProductError(F, u, v, U, V, eu, ev);
    assert U * V / F == W;
  }

  lemma Triangle(u: real, v: real, w: real, e: real, e': real)
    requires Abs(u - v) <= e && Abs(v - w) <= e'
    ensures Abs(u - w) <= e + e'
  {
  }

  lemma TimesReal(a: nat, b: nat)
    ensures Times(a, b) as real == a as real * b as real
  {
  }

  /** The loop invariant behind the bound: a partial result at power `a` is off by at most
      `a / 2` and a base at power `m` by at most `(m - 1) / 2`. */
  lemma {:induction false} PowerFromNear(result: nat, x: nat, fracBits: nat, n: nat, p: real, a: nat, m: nat)
    requires fracBits >= 1 && 2 * fracBits + 1 <= 32 && m >= 1
    requires result <= Pow2(fracBits) && x <= Pow2(fracBits) && 0.0 <= p <= 1.0
    requires Abs(result as real - Exact(Pow2(fracBits) as real, p, a)) <= a as real / 2.0
    requires Abs(x as real - Exact(Pow2(fracBits) as real, p, m)) <= (m - 1) as real / 2.0
    ensures PowerFrom(result, x, fracBits, n) <= Pow2(fracBits)
    ensures Abs(PowerFrom(result, x, fracBits, n) as real - Exact(Pow2(fracBits) as real, p, a + m * n))
            <= (a + m * n) as real / 2.0
    decreases n
  {
    hide Exact, MulRound;
    if n > 0 {
      MulRoundNear(x, x, fracBits);
      MulRoundError(x, x, fracBits, p, m, m, (m - 1) as real / 2.0, (m - 1) as real / 2.0);
      var x' := MulRound(x, x, fracBits);
      Halve(m, n);
      if n % 2 == 1 {
        MulRoundNear(result, x, fracBits);
        MulRoundError(result, x, fracBits, p, a, m, a as real / 2.0, (m - 1) as real / 2.0);
        PowerFromNear(MulRound(result, x, fracBits), x', fracBits, n / 2, p, a + m, m + m);
      } else {
        PowerFromNear(result, x', fracBits, n / 2, p, a, m + m);
      }
    }
  }

  lemma Halve(m: nat, n: nat)
    ensures (m + m) * (n / 2) + (if n % 2 == 1 then m else 0) == m * n
  {
    var h := n / 2;
    if n % 2 == 1 {
      assert n == 2 * h + 1;
      assert m * n == m * (2 * h) + m;
    } else {
      assert n == 2 * h;
    }
  }

  lemma FirstPowers(F: real, x: real)
    requires F > 0.0
    ensures Exact(F, x / F, 0) == F && Exact(F, x / F, 1) == x
  {
  }

  /** For every `n`, the computed power never exceeds full scale and is within `n / 2`
      units of the exact `x^n / F^(n-1)`, that is `F * (x / F)^n`. */
  lemma FixedPowerNear(x: nat, fracBits: nat, n: nat)
    requires 1 <= fracBits && 2 * fracBits + 1 <= 32 && x <= Pow2(fracBits)
    ensures FixedPower(x, fracBits, n) <= Pow2(fracBits)
    ensures var F := Pow2(fracBits) as real;
            Abs(FixedPower(x, fracBits, n) as real - Exact(F, x as real / F, n)) <= n as real / 2.0
  {
    var F := Pow2(fracBits) as real;
    var p := x as real / F;
    assert 0.0 <= p <= 1.0 && Exact(F, p, 1) == x as real && Exact(F, p, 0) == F by {
      UnitRatio(x as real, F);
      FirstPowers(F, x as real);
    }
    PowerFromNear(Pow2(fracBits), x, fracBits, n, p, 0, 1);
    assert 0 + 1 * n == n;
  }

  // ---------------------------------------------------------------------------
  // calc_load and calc_load_n
  // ---------------------------------------------------------------------------

  /** `a - b` on the register. */
  function WordMinus(a: nat, b: nat): nat
  {
    if b <= a then a - b else (a - b) % 0x1_0000_0000
  }

  /** core.c's one-step average, on the register. */
  function CalcLoad(load: nat, exp: nat, active: nat): nat {
    ShiftRight(Word(Word(WordTimes(load, exp) + WordTimes(active, WordMinus(FIXED_1, exp))) + 1024), FSHIFT)
  }

  function CalcLoadN(load: nat, exp: nat, active: nat, n: nat): nat {
    CalcLoad(load, FixedPower(exp, FSHIFT, n), active)
  }

  /** The same average without a register: the weighted mean rounded to nearest. */
  function Average(load: nat, exp: nat, active: nat): nat
    requires exp <= FIXED_1
  {
    (Times(load, exp) + Times(active, FIXED_1 - exp) + 1024) / 2048
  }

  /** The largest load that 32 bits can average: 1023 active tasks. */
  const MAX_LOAD := 1023 * 2048

  lemma FullScale()
    ensures Pow2(FSHIFT) == FIXED_1
  {
  }

  /** The two weights of an average add up to full scale. */
  lemma WeightsAddUp(v: nat, exp: nat)
    requires exp <= FIXED_1
    ensures Times(v, exp) + Times(v, FIXED_1 - exp) == v * 2048
  {
    TimesIsProduct(v, exp);
    TimesIsProduct(v, FIXED_1 - exp);
  }

  /** With at most 1023 tasks' worth of load the register never wraps. */
  lemma CalcLoadFits(load: nat, exp: nat, active: nat)
    requires load <= MAX_LOAD && active <= MAX_LOAD && exp <= FIXED_1
    ensures Times(load, exp) + Times(active, FIXED_1 - exp) + 1024 < WORD_SIZE
    ensures CalcLoad(load, exp, active) == Average(load, exp, active)
  {
    WeightedSumFits(load, exp, active);
    RegisterKeeps(Times(load, exp), Times(active, FIXED_1 - exp));
    ShiftByFshift(Times(load, exp) + Times(active, FIXED_1 - exp) + 1024);
  }

  lemma RegisterKeeps(u: nat, v: nat)
    requires u + v + 1024 < WORD_SIZE
    ensures Word(Word(Word(u) + Word(v)) + 1024) == u + v + 1024
  {
  }

  lemma WeightedSumFits(load: nat, exp: nat, active: nat)
    requires load <= MAX_LOAD && active <= MAX_LOAD && exp <= FIXED_1
    ensures Times(load, exp) + Times(active, FIXED_1 - exp) + 1024 < WORD_SIZE
  {
    TimesMonotone(load, MAX_LOAD, exp);
    TimesMonotone(active, MAX_LOAD, FIXED_1 - exp);
    WeightsAddUp(MAX_LOAD, exp);
  }

  lemma ShiftByFshift(v: nat)
    ensures ShiftRight(v, FSHIFT) == v / 2048
  {
    ShiftIsQuotient(v, FSHIFT);
    FullScale();
    TimesIsProduct(FIXED_1, ShiftRight(v, FSHIFT));
    TimesIsProduct(FIXED_1, ShiftRight(v, FSHIFT) + 1);
  }

  /** The average stays between the old load and the active count. */
  lemma AverageBetween(load: nat, exp: nat, active: nat)
    requires exp <= FIXED_1
    ensures load <= active ==> load <= Average(load, exp, active) <= active
    ensures active <= load ==> active <= Average(load, exp, active) <= load
  {
    WeightsAddUp(load, exp);
    WeightsAddUp(active, exp);
    if load <= active {
      TimesMonotone(load, active, exp);
      TimesMonotone(load, active, FIXED_1 - exp);
    } else {
      TimesMonotone(active, load, exp);
      TimesMonotone(active, load, FIXED_1 - exp);
    }
  }

  lemma AverageMonotone(load: nat, load': nat, exp: nat, active: nat, active': nat)
    requires exp <= FIXED_1 && load <= load' && active <= active'
    ensures Average(load, exp, active) <= Average(load', exp, active')
  {
    TimesMonotone(load, load', exp);
    TimesMonotone(active, active', FIXED_1 - exp);
  }

  /** When exactly a step moves: strictly down from above, strictly up from below. */
  lemma AverageMoves(load: nat, exp: nat, active: nat)
    requires exp <= FIXED_1
    ensures Average(load, exp, active) < load <==> (load - active) * (FIXED_1 - exp) > 1024
    ensures Average(load, exp, active) > load <==> (active - load) * (FIXED_1 - exp) >= 1024
  {
    WeightsAddUp(load, exp);
    TimesDifference(load, active, FIXED_1 - exp);
  }

  lemma TimesDifference(a: nat, b: nat, w: nat)
    ensures Times(a, w) - Times(b, w) == (a - b) * w == -((b - a) * w)
  {
  }

  /** `n` single steps with the same active count. */
  function Iterate(load: nat, exp: nat, active: nat, n: nat): nat
    requires exp <= FIXED_1
  {
    if n == 0 then load else Average(Iterate(load, exp, active, n - 1), exp, active)
  }

  /** The weighted mean of two reals. */
  function Mean(w: real, l: real, a: real): real {
    w * l + (1.0 - w) * a
  }

  /** The exact `n`-step average: weight `p^n` on the old load. */
  function ExactAverage(load: real, p: real, active: real, n: nat): real {
    Mean(RPow(p, n), load, active)
  }

  lemma AverageNear(load: nat, exp: nat, active: nat, p: real)
    requires exp <= FIXED_1 && exp as real == 2048.0 * p
    ensures Abs(Average(load, exp, active) as real - Mean(p, load as real, active as real)) <= 0.5
  {
    WeightedSumReal(load, exp, active, p);
    hide Mean, Times;
    QuotientNear(Times(load, exp) + Times(active, FIXED_1 - exp), Average(load, exp, active));
  }

  lemma WeightedSumReal(load: nat, exp: nat, active: nat, p: real)
    requires exp <= FIXED_1 && exp as real == 2048.0 * p
    ensures (Times(load, exp) + Times(active, FIXED_1 - exp)) as real / 2048.0
            == Mean(p, load as real, active as real)
  {
    hide Times;
    TimesScaled(load, exp, p);
    TimesScaled(active, FIXED_1 - exp, 1.0 - p);
  }

  lemma TimesScaled(v: nat, weight: nat, p: real)
    requires weight as real == 2048.0 * p
    ensures Times(v, weight) as real == 2048.0 * (p * v as real)
  {
    TimesReal(v, weight);
  }

  lemma QuotientNear(sum: nat, q: nat)
    requires q == (sum + 1024) / 2048
    ensures Abs(q as real - sum as real / 2048.0) <= 0.5
  {
  }

  /** One more exact step is a weighted mean of the previous one and `active`. */
  lemma ExactAverageStep(load: real, p: real, active: real, n: nat)
    ensures ExactAverage(load, p, active, n + 1) == Mean(p, ExactAverage(load, p, active, n), active)
  {
  }

  /** Rounding errors do not grow: the weights contract them, so `n` rounded steps stay
      within `n / 2` of the exact average. */
  lemma {:induction false} IterateNear(load: nat, exp: nat, active: nat, p: real, n: nat)
    requires exp <= FIXED_1 && exp as real == 2048.0 * p
    ensures Abs(Iterate(load, exp, active, n) as real - ExactAverage(load as real, p, active as real, n)) <= n as real / 2.0
  {
    if n == 0 {
      assert Mean(1.0, load as real, active as real) == load as real;
    } else {
      hide Mean, ExactAverage, Average;
      var l := Iterate(load, exp, active, n - 1);
      IterateNear(load, exp, active, p, n - 1);
      AverageNear(l, exp, active, p);
      ExactAverageStep(load as real, p, active as real, n - 1);
      Contract(l as real, ExactAverage(load as real, p, active as real, n - 1), p, active as real, (n - 1) as real / 2.0);
    }
  }

  lemma Contract(u: real, v: real, p: real, a: real, e: real)
    requires 0.0 <= p <= 1.0 && Abs(u - v) <= e
    ensures Abs(Mean(p, u, a) - Mean(p, v, a)) <= e
  {
    Scale(p, u - v, e);
    assert Mean(p, u, a) - Mean(p, v, a) == p * (u - v);
  }

  /** Replacing the weight `q` by a computed weight `w` moves the mean by at most the
      weight's error times the distance between the two points. */
  lemma WeightError(w: real, q: real, l: real, a: real, e: real)
    requires Abs(w - q) <= e
    ensures Abs(Mean(w, l, a) - Mean(q, l, a)) <= e * Abs(l - a)
  {
    assert Mean(w, l, a) - Mean(q, l, a) == (w - q) * (l - a);
    AbsProduct(w - q, l - a, e);
  }

  lemma AbsProduct(u: real, v: real, e: real)
    requires Abs(u) <= e
    ensures Abs(u * v) <= e * Abs(v)
  {
    if v >= 0.0 {
      assert -e * v <= u * v <= e * v;
    } else {
      assert -e * (-v) <= u * (-v) <= e * (-v);
      assert u * (-v) == -(u * v);
    }
  }

  /** What the shortcut may lose against single steps: rounding, plus the error of the
      computed weight spread over the distance between load and count. */
  function ShortcutError(load: nat, active: nat, n: nat): real {
    (n + 1) as real / 2.0 + n as real / 4096.0 * Abs(load as real - active as real)
  }

  /** The n-step shortcut against `n` single steps, for every load, count and exponent. */
  lemma ShortcutNear(load: nat, exp: nat, active: nat, n: nat)
    requires exp <= FIXED_1
    ensures FixedPower(exp, FSHIFT, n) <= FIXED_1
    ensures Abs(Average(load, FixedPower(exp, FSHIFT, n), active) as real - Iterate(load, exp, active, n) as real)
            <= ShortcutError(load, active, n)
  {
    hide Mean, ExactAverage, Average, FixedPower;
    var P := FixedPower(exp, FSHIFT, n);
    var p := exp as real / 2048.0;
    FullScale();
    FixedPowerNear(exp, FSHIFT, n);
    OneStepNear(load, P, active, p, n);
    IterateNear(load, exp, active, p, n);
  }

  lemma OneStepNear(load: nat, P: nat, active: nat, p: real, n: nat)
    requires P <= FIXED_1 && Abs(P as real - Exact(2048.0, p, n)) <= n as real / 2.0
    ensures Abs(Average(load, P, active) as real - ExactAverage(load as real, p, active as real, n))
            <= 0.5 + n as real / 4096.0 * Abs(load as real - active as real)
  {
    hide Mean, Average;
    var w := P as real / 2048.0;
    WeightNear(P as real, RPow(p, n), n as real / 2.0);
    WeightError(w, RPow(p, n), load as real, active as real, n as real / 4096.0);
    AverageNear(load, P, active, w);
    Triangle(Average(load, P, active) as real, Mean(w, load as real, active as real),
             Mean(RPow(p, n), load as real, active as real),
             0.5, n as real / 4096.0 * Abs(load as real - active as real));
  }

  lemma WeightNear(P: real, q: real, e: real)
    requires Abs(P - 2048.0 * q) <= e
    ensures Abs(P / 2048.0 - q) <= e / 2048.0
  {
  }

  /** The same for the register code, whose loads must fit: at most 1023 tasks. */
  lemma CalcLoadNNear(load: nat, exp: nat, active: nat, n: nat)
    requires exp <= FIXED_1 && load <= MAX_LOAD && active <= MAX_LOAD
    ensures Abs(CalcLoadN(load, exp, active, n) as real - Iterate(load, exp, active, n) as real)
            <= ShortcutError(load, active, n)
  {
    ShortcutNear(load, exp, active, n);
    CalcLoadFits(load, FixedPower(exp, FSHIFT, n), active);
  }

  // ---------------------------------------------------------------------------
  // whole runs of the average
  // ---------------------------------------------------------------------------

  /** The register code over a run of active counts, and the same run without a register. */
  function RegisterRun(load: nat, exp: nat, actives: seq<nat>): nat {
    if actives == [] then load
    else CalcLoad(RegisterRun(load, exp, actives[..|actives| - 1]), exp, actives[|actives| - 1])
  }

  function AverageRun(load: nat, exp: nat, actives: seq<nat>): nat
    requires exp <= FIXED_1
  {
    if actives == [] then load
    else Average(AverageRun(load, exp, actives[..|actives| - 1]), exp, actives[|actives| - 1])
  }

  /** No run with at most 1023 active tasks ever wraps, whatever its length. */
  lemma {:induction false} RunNeverWraps(load: nat, exp: nat, actives: seq<nat>)
    requires exp <= FIXED_1 && load <= MAX_LOAD
    requires forall i :: 0 <= i < |actives| ==> actives[i] <= MAX_LOAD
    ensures RegisterRun(load, exp, actives) == AverageRun(load, exp, actives) <= MAX_LOAD
  {
    if actives != [] {
      var front, last := actives[..|actives| - 1], actives[|actives| - 1];
      RunNeverWraps(load, exp, front);
      var l := AverageRun(load, exp, front);
      CalcLoadFits(l, exp, last);
      AverageBetween(l, exp, last);
    }
  }

  /** And 1023 is exact: the steady load of `tasks` tasks stays what it is, at any exponent,
      exactly up to that number. */
  lemma SteadyLoadHoldsIff(tasks: nat, exp: nat)
    requires exp <= FIXED_1
    ensures CalcLoad(tasks * 2048, exp, tasks * 2048) == tasks * 2048 <==> tasks <= 1023
  {
    if tasks <= 1023 {
      CalcLoadFits(tasks * 2048, exp, tasks * 2048);
      AverageBetween(tasks * 2048, exp, tasks * 2048);
    } else {
      ShiftByFshift(Word(Word(WordTimes(tasks * 2048, exp) + WordTimes(tasks * 2048, WordMinus(FIXED_1, exp))) + 1024));
    }
  }

  /** A fixed point of the step is exactly a load whose distance from `active` rounding
      can no longer move. */
  predicate Settled(load: nat, exp: nat, active: nat)
    requires exp <= FIXED_1
  {
    Average(load, exp, active) == load
  }

  lemma SettledIsClose(load: nat, exp: nat, active: nat)
    requires exp <= FIXED_1
    ensures Settled(load, exp, active) <==>
            -1024 < (load - active) * (FIXED_1 - exp) <= 1024
  {
    AverageMoves(load, exp, active);
    assert (active - load) * (FIXED_1 - exp) == -((load - active) * (FIXED_1 - exp));
  }

  function Distance(a: nat, b: nat): nat {
    if a <= b then b - a else a - b
  }

  /** Iterating settles after at most `|load - active|` steps, and from then on for good. */
  lemma {:induction false} Settles(load: nat, exp: nat, active: nat, n: nat)
    requires exp <= FIXED_1
    ensures Settled(Iterate(load, exp, active, n), exp, active)
            || Distance(Iterate(load, exp, active, n), active) + n <= Distance(load, active)
    ensures n > Distance(load, active) ==> Settled(Iterate(load, exp, active, n), exp, active)
  {
    if n > 0 {
      Settles(load, exp, active, n - 1);
      AverageBetween(Iterate(load, exp, active, n - 1), exp, active);
    }
  }

  // ---------------------------------------------------------------------------
  // comparing weights
  // ---------------------------------------------------------------------------

  /** The smaller the weight of the old load, the closer the average comes to the count. */
  lemma SmallerWeightFollows(load: nat, exp: nat, exp': nat, active: nat)
    requires exp <= exp' <= FIXED_1
    ensures load <= active ==> Average(load, exp', active) <= Average(load, exp, active)
    ensures active <= load ==> Average(load, exp, active) <= Average(load, exp', active)
  {
    var d: nat := exp' - exp;
    TimesSum(load, exp, d);
    TimesSum(active, FIXED_1 - exp', d);
    if load <= active {
      TimesMonotone(load, active, d);
    } else {
      TimesMonotone(active, load, d);
    }
  }

  lemma {:induction false} TimesSum(v: nat, a: nat, b: nat)
    ensures Times(v, a + b) == Times(v, a) + Times(v, b)
  {
    if b > 0 {
      TimesSum(v, a, b - 1);
    }
  }

  lemma {:induction false} ShiftMonotone(u: nat, v: nat, bits: nat)
    requires u <= v
    ensures ShiftRight(u, bits) <= ShiftRight(v, bits)
  {
    if bits > 0 {
      ShiftMonotone(u / 2, v / 2, bits - 1);
    }
  }

  /** Below full scale the register does not wrap. */
  lemma MulRoundExact(a: nat, b: nat, fracBits: nat)
    requires fracBits >= 1 && 2 * fracBits + 1 <= 32
    requires a <= Pow2(fracBits) && b <= Pow2(fracBits)
    ensures MulRound(a, b, fracBits) == ShiftRight(Times(a, b) + Pow2(fracBits - 1), fracBits) <= Pow2(fracBits)
  {
    hide Times, ShiftRight, Pow2, Word, Abs;
    MulRoundNear(a, b, fracBits);
    WordKeeps(Times(a, b));
    WordKeeps(Times(a, b) + Pow2(fracBits - 1));
  }

  lemma WordKeeps(v: nat)
    requires v < WORD_SIZE
    ensures Word(v) == v
  {
  }

  lemma MulRoundMonotone(a: nat, b: nat, a': nat, b': nat, fracBits: nat)
    requires fracBits >= 1 && 2 * fracBits + 1 <= 32
    requires a <= a' <= Pow2(fracBits) && b <= b' <= Pow2(fracBits)
    ensures MulRound(a, b, fracBits) <= MulRound(a', b', fracBits) <= Pow2(fracBits)
  {
    hide Times, ShiftRight, Pow2, MulRound;
    MulRoundExact(a, b, fracBits);
    MulRoundExact(a', b', fracBits);
    TimesMonotone(a, a', b);
    TimesMonotoneRight(a', b, b');
    ShiftMonotone(Times(a, b) + Pow2(fracBits - 1), Times(a', b') + Pow2(fracBits - 1), fracBits);
  }

  lemma {:induction false} PowerFromMonotone(r: nat, x: nat, r': nat, x': nat, fracBits: nat, n: nat)
    requires fracBits >= 1 && 2 * fracBits + 1 <= 32
    requires r <= r' <= Pow2(fracBits) && x <= x' <= Pow2(fracBits)
    ensures PowerFrom(r, x, fracBits, n) <= PowerFrom(r', x', fracBits, n)
    decreases n
  {
    hide MulRound, Pow2;
    if n > 0 {
      MulRoundMonotone(r, x, r', x', fracBits);
      MulRoundMonotone(x, x, x', x', fracBits);
      var odd := n % 2 == 1;
      PowerFromMonotone(if odd then MulRound(r, x, fracBits) else r, MulRound(x, x, fracBits),
                        if odd then MulRound(r', x', fracBits) else r', MulRound(x', x', fracBits), fracBits, n / 2);
    }
  }

  /** The computed power keeps the order of the bases. */
  lemma FixedPowerMonotone(x: nat, x': nat, n: nat)
    requires x <= x' <= FIXED_1
    ensures FixedPower(x, FSHIFT, n) <= FixedPower(x', FSHIFT, n) <= FIXED_1
  {
    FullScale();
    FixedPowerNear(x', FSHIFT, n);
    PowerFromMonotone(Pow2(FSHIFT), x, Pow2(FSHIFT), x', FSHIFT, n);
    hide PowerFrom;
  }

  /** A rounded product of the load average, as plain arithmetic. */
  lemma MulRoundIs(a: nat, b: nat)
    requires a <= FIXED_1 && b <= FIXED_1
    ensures MulRound(a, b, FSHIFT) == (a * b + 1024) / 2048
  {
    FullScale();
    assert Pow2(10) == 1024;
    hide Times, ShiftRight, Pow2, MulRound;
    MulRoundExact(a, b, FSHIFT);
    TimesIsProduct(a, b);
    ShiftByFshift(a * b + 1024);
  }

  /** One round of the power with the squares `x`, `x2` and the results `r`, `r2`. */
  lemma PowerRound(r: nat, x: nat, r2: nat, x2: nat, n: nat)
    requires n > 0 && r <= FIXED_1 && x <= FIXED_1
    requires x2 == (x * x + 1024) / 2048 && r2 == if n % 2 == 1 then (r * x + 1024) / 2048 else r
    ensures PowerFrom(r, x, FSHIFT, n) == PowerFrom(r2, x2, FSHIFT, n / 2)
  {
    MulRoundIs(r, x);
    MulRoundIs(x, x);
    hide MulRound;
  }

  /** The weights of eleven, 59 and 179 periods: a minute, five and fifteen, less one period. */
  lemma MinutePower()
    ensures FixedPower(EXP_1, FSHIFT, 11) == 816
  {
    hide PowerFrom;
    FullScale();
    PowerRound(2048, 1884, 1884, 1733, 11);
    PowerRound(1884, 1733, 1594, 1466, 5);
    PowerRound(1594, 1466, 1594, 1049, 2);
    PowerRound(1594, 1049, 816, 537, 1);
    PowerEnds(816, 537);
  }

  lemma FiveMinutesPower()
    ensures FixedPower(EXP_5, FSHIFT, 59) == 768
  {
    hide PowerFrom;
    FullScale();
    PowerRound(2048, 2014, 2014, 1981, 59);
    PowerRound(2014, 1981, 1948, 1916, 29);
    PowerRound(1948, 1916, 1948, 1793, 14);
    PowerRound(1948, 1793, 1705, 1570, 7);
    PowerRound(1705, 1570, 1307, 1204, 3);
    PowerRound(1307, 1204, 768, 708, 1);
    PowerEnds(768, 708);
  }

  lemma QuarterPower()
    ensures FixedPower(EXP_15, FSHIFT, 179) == 777
  {
    hide PowerFrom;
    FullScale();
    PowerRound(2048, 2037, 2037, 2026, 179);
    PowerRound(2037, 2026, 2015, 2004, 89);
    PowerRound(2015, 2004, 2015, 1961, 44);
    PowerRound(2015, 1961, 2015, 1878, 22);
    PowerRound(2015, 1878, 1848, 1722, 11);
    PowerRound(1848, 1722, 1554, 1448, 5);
    PowerRound(1554, 1448, 1554, 1024, 2);
    PowerRound(1554, 1024, 777, 512, 1);
    PowerEnds(777, 512);
  }

  lemma PowerEnds(r: nat, x: nat)
    ensures PowerFrom(r, x, FSHIFT, 0) == r
  {
  }

  /** From zero, with one task: the first step and any later one. */
  lemma FirstStep(exp: nat)
    requires exp <= FIXED_1
    ensures CalcLoad(0, exp, 2048) == 2048 - exp
  {
    hide CalcLoad;
    CalcLoadFits(0, exp, 2048);
    TimesIsProduct(0, exp);
    TimesIsProduct(2048, FIXED_1 - exp);
  }

  lemma LaterStep(load: nat, exp: nat, r: nat)
    requires load <= 2048 && exp <= FIXED_1 && r == (load * exp + 2048 * (2048 - exp) + 1024) / 2048
    ensures CalcLoad(load, exp, 2048) == r
  {
    hide CalcLoad;
    CalcLoadFits(load, exp, 2048);
    TimesIsProduct(load, exp);
    TimesIsProduct(2048, FIXED_1 - exp);
  }
}
