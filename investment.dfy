/**
 * The weekly investment panel's arithmetic: the budget cap, the $1k steps
 * of an allocation, and the stat effects of confirming it. The source
 * computes these with floating-point rates (`funds * 0.25 / 1000`, 1.5 and
 * 0.5 Product per $1k, `Math.round`); because every allocation is a
 * multiple of 1000 they are exact integer formulas here, and the lemmas at
 * the end connect each one to its real-valued reading.
 */
module Investment {
  import opened Wrappers
  import opened Stats

  datatype Category = Mkt | Tech | Hire

  /** `this.alloc = { Mkt, Tech, Hire }`, in dollars. */
  datatype Alloc = Alloc(mkt: int, tech: int, hire: int)

  /** One click of "+ Invest $1k" / "- Remove $1k". */
  const StepSize: int := 1000
  /** The budget is never set below $2k by the quarter-of-funds rule. */
  const MinBudget: int := 2000

  const Zero: Alloc := Alloc(0, 0, 0)

  function Total(a: Alloc): int {
    a.mkt + a.tech + a.hire
  }

  function Get(a: Alloc, c: Category): int {
    match c
    case Mkt => a.mkt
    case Tech => a.tech
    case Hire => a.hire
  }

  function Set(a: Alloc, c: Category, v: int): (r: Alloc)
    ensures Get(r, c) == v
    ensures forall c' :: c' != c ==> Get(r, c') == Get(a, c')
  {
    match c
    case Mkt => a.(mkt := v)
    case Tech => a.(tech := v)
    case Hire => a.(hire := v)
  }

  /** Every category holds a non-negative whole number of $1k steps. */
  predicate Stepped(a: Alloc) {
    forall c :: Get(a, c) >= 0 && Get(a, c) % StepSize == 0
  }

  /** The panel's allocation invariant: stepped and within the budget. */
  predicate WithinBudget(a: Alloc, budget: int) {
    Stepped(a) && Total(a) <= budget
  }

  /**
   * `Math.min(Math.max(2000, Math.floor(funds * 0.25 / 1000) * 1000), funds)`:
   * a quarter of the funds rounded down to whole $1k, at least $2k, but
   * never more than the funds themselves.
   */
  function MaxBudget(funds: int): (b: int)
    ensures b <= funds
    ensures funds >= MinBudget ==> b >= MinBudget
    ensures funds > 0 ==> b > 0
    ensures b == funds || b % StepSize == 0
    ensures b <= MinBudget || 4 * b <= funds
    ensures funds >= MinBudget ==> 4 * b > funds - 4 * StepSize
  {
    var quarter := funds / 4000 * StepSize;
    var capped := if quarter < MinBudget then MinBudget else quarter;
    if capped < funds then capped else funds
  }

  /** Hype: +2 per $1k of marketing. */
  function HypeGain(a: Alloc): int {
    a.mkt / StepSize * 2
  }

  /** Product: 1.5 per $1k of tech plus 0.5 per $1k of hiring, halves rounded up. */
  function ProductGain(a: Alloc): int {
    (3 * (a.tech / StepSize) + a.hire / StepSize + 1) / 2
  }

  /** Morale: +2 per $1k of hiring, -1 per whole $4k of marketing. */
  function MoraleGain(a: Alloc): int {
    a.hire / StepSize * 2 - a.mkt / 4000
  }

  /**
   * The effect map that `confirmInvestment` hands to `applyEffects`: Product,
   * Morale and Hype, no Funds key (the spend is deducted separately).
   */
  function InvestmentEffects(a: Alloc): (e: Effects)
    requires Stepped(a)
    ensures e.funds.None? && e.product.Some? && e.morale.Some? && e.hype.Some?
    ensures e.hype.value * StepSize == 2 * a.mkt
    ensures var n := 3 * (a.tech / StepSize) + a.hire / StepSize;
            n <= 2 * e.product.value <= n + 1
    ensures e.morale.value == 2 * (a.hire / StepSize) - a.mkt / 4000
    ensures e.product.value >= 0 && e.hype.value >= 0
  {
    assert Get(a, Mkt) % StepSize == 0 && Get(a, Mkt) >= 0;
    assert Get(a, Tech) >= 0 && Get(a, Hire) >= 0;
    Effects(None, Some(ProductGain(a)), Some(MoraleGain(a)), Some(HypeGain(a)))
  }

  /**
   * The stats after a confirmed investment with a positive total: Funds
   * drops by the total (floored at 0), then the investment effects are
   * applied. Funds never rises, Product and Hype never fall, and the
   * bounds are kept.
   */
  function Invested(s: Stats, a: Alloc): (r: Stats)
    requires Stepped(a)
    ensures r.funds == if s.funds - Total(a) < 0 then 0 else s.funds - Total(a)
    ensures InBounds(s) ==> InBounds(r) && r.funds <= s.funds && r.product >= s.product && r.hype >= s.hype
    ensures 0 <= r.product <= PercentMax && 0 <= r.morale <= PercentMax && 0 <= r.hype <= PercentMax
  {
    assert Get(a, Mkt) >= 0 && Get(a, Tech) >= 0 && Get(a, Hire) >= 0;
    var charged := s.(funds := FundsAfter(s.funds, Some(-Total(a))));
    Applied(charged, InvestmentEffects(a))
  }

  // ---------------------------------------------------------------------
  // The integer formulas agree with the source's real-valued expressions.
  // ---------------------------------------------------------------------

  /** JavaScript's `Math.round`: halves go up. */
  function JsRound(x: real): int {
    (x + 0.5).Floor
  }

  /** `Math.floor(funds * 0.25 / 1000) * 1000` etc., read over the reals. */
  function MaxBudgetReal(funds: int): int {
    var quarter := (funds as real * 0.25 / 1000.0).Floor * 1000;
    var capped := if quarter < 2000 then 2000 else quarter;
    if capped < funds then capped else funds
  }

  lemma {:induction false} FloorOfQuotient(n: int, d: int)
    requires d > 0
    ensures (n as real / d as real).Floor == n / d
  {
    var q, r := n / d, n % d;
    assert n == d * q + r && 0 <= r < d;
    assert n as real / d as real == q as real + r as real / d as real;
    assert 0.0 <= r as real / d as real < 1.0;
  }

  /** The budget rule's floating-point reading equals the integer one. */
  lemma MaxBudgetMatchesReal(funds: int)
    ensures MaxBudget(funds) == MaxBudgetReal(funds)
  {
    assert funds as real * 0.25 / 1000.0 == funds as real / 4000.0;
    FloorOfQuotient(funds, 4000);
  }

  /**
   * For a stepped allocation, `Math.round` of the source's three rate
   * expressions gives exactly the integer gains used by the model.
   */
  lemma InvestmentMatchesReal(a: Alloc)
    requires Stepped(a)
    ensures HypeGain(a) == JsRound((a.mkt as real / 1000.0) * 2.0)
    ensures ProductGain(a) == JsRound((a.tech as real / 1000.0) * 1.5 + (a.hire as real / 1000.0) * 0.5)
    ensures MoraleGain(a) == JsRound((a.hire as real / 1000.0) * 2.0 - (a.mkt as real / 4000.0).Floor as real)
  {
    var m, t, h := a.mkt / StepSize, a.tech / StepSize, a.hire / StepSize;
    assert Get(a, Mkt) % StepSize == 0 && Get(a, Tech) % StepSize == 0 && Get(a, Hire) % StepSize == 0;
    assert a.mkt as real / 1000.0 == m as real;
    assert a.tech as real / 1000.0 == t as real;
    assert a.hire as real / 1000.0 == h as real;
    var n := 3 * t + h + 1;
    assert t as real * 1.5 + h as real * 0.5 + 0.5 == n as real / 2.0;
    FloorOfQuotient(n, 2);
    FloorOfQuotient(a.mkt, 4000);
    assert ((m * 2) as real + 0.5).Floor == m * 2;
    var k := h * 2 - a.mkt / 4000;
    assert (k as real + 0.5).Floor == k;
  }
}
