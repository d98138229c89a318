/**
 A commission rule must pay for the payment provider at every admitted price. The platform only looks at
 a handful of prices: the ends of the range and the kinks of the commission. This module measures how far
 that finite look reaches.
 */
module FeeCoverage {
  import opened Results
  import opened Commission

  /** What the provider charges the platform: a rate, a fixed part, and the taxes around them. */
  datatype ProviderFee = ProviderFee(rateBp: nat, fixedCents: nat, serviceBp: nat, commissionBp: nat)

  const DEFAULT_FEE := ProviderFee(360, 300, 1600, 1600)
  const MIN_SERVICE_CENTS := 5_000
  const MAX_SERVICE_CENTS := 50_000_000

  function ProviderCost(price: nat, fee: ProviderFee): nat {
    var charged := ApplyBp(WithTax(price, fee.serviceBp), fee.rateBp) + fee.fixedCents;
    WithTax(charged, fee.commissionBp)
  }

  predicate Covers(terms: RuleTerms, price: nat, fee: ProviderFee) {
    terms.Commission(price) >= ProviderCost(price, fee)
  }

  // ---------------------------------------------------------------------------
  // The finite check
  // ---------------------------------------------------------------------------

  function FloorDiv(n: nat, d: nat): nat
    requires d > 0
  {
    n / d
  }

  /** The price at which the proportional part reaches `bound`, rounded down. */
  function Kink(terms: RuleTerms, bound: nat): nat
    requires terms.Rate() > 0 && bound > terms.FixedPart()
  {
    FloorDiv((bound - terms.FixedPart()) * 10_000, terms.Rate())
  }

  function BoundKink(terms: RuleTerms, bound: Option<nat>): set<nat> {
    if terms.Rate() > 0 && bound.Some? && bound.value > terms.FixedPart() then {Kink(terms, bound.value)} else {}
  }

  function Points(terms: RuleTerms, lo: nat, hi: nat): set<nat> {
    {lo, hi} + BoundKink(terms, terms.minCents) + BoundKink(terms, terms.maxCents)
    + if terms.Rate() < 10_000 then {FloorDiv(terms.FixedPart() * 10_000, 10_000 - terms.Rate())} else {}
  }

  /** Every point and its two neighbours, kept inside the range. */
  function Candidates(terms: RuleTerms, lo: nat, hi: nat): set<nat> {
    (set p | p in Points(terms, lo, hi) && lo <= p <= hi :: p)
    + (set p | p in Points(terms, lo, hi) && lo <= p + 1 <= hi :: p + 1)
    + (set p | p in Points(terms, lo, hi) && p > 0 && lo <= p - 1 <= hi :: p - 1)
  }

  ghost predicate IsLeast(x: nat, s: set<nat>) {
    x in s && forall y :: y in s ==> x <= y
  }

  lemma {:induction false} LeastExists(s: set<nat>)
    requires s != {}
    ensures exists x :: IsLeast(x, s)
    decreases s
  {
    var a :| a in s;
    var below: set<nat> := set b | b in s && b < a;
    if below != {} {
      LeastExists(below);
      var x :| IsLeast(x, below);
      assert forall y :: y in s ==> y in below || a <= y;
      assert IsLeast(x, s);
    } else {
      assert forall y :: y in s && y < a ==> y in below;
      assert IsLeast(a, s);
    }
  }

  /** Looks at the candidates in increasing order and stops at the first one that is not covered. */
  method FirstUncovered(terms: RuleTerms, candidates: set<nat>, fee: ProviderFee) returns (found: Option<nat>)
    ensures found.None? <==> forall p :: p in candidates ==> Covers(terms, p, fee)
    ensures found.Some? ==>
              && found.value in candidates && !Covers(terms, found.value, fee)
              && forall p :: p in candidates && p < found.value ==> Covers(terms, p, fee)
  {
    var rest := candidates;
    while rest != {}
      invariant rest <= candidates
      invariant forall p, q :: p in candidates - rest && q in rest ==> p < q
      invariant forall p :: p in candidates - rest ==> Covers(terms, p, fee)
      decreases rest
    {
      LeastExists(rest);
      var price :| price in rest && forall q :: q in rest ==> price <= q;
      if !Covers(terms, price, fee) {
        return Some(price);
      }
      assert forall p :: p in candidates - (rest - {price}) ==> p in candidates - rest || p == price;
      rest := rest - {price};
    }
    return None;
  }

  method UncoveredPrice(terms: RuleTerms, lo: nat, hi: nat, fee: ProviderFee) returns (found: Option<nat>)
    ensures found.None? <==> Checked(terms, lo, hi, fee)
    ensures found.Some? ==> lo <= found.value <= hi && !Covers(terms, found.value, fee)
  {
    found := FirstUncovered(terms, Candidates(terms, lo, hi), fee);
  }

  /** The finite check passes: every candidate is covered. */
  ghost predicate Checked(terms: RuleTerms, lo: nat, hi: nat, fee: ProviderFee) {
    forall p :: p in Candidates(terms, lo, hi) ==> Covers(terms, p, fee)
  }

  // ---------------------------------------------------------------------------
  // Exact (unrounded) commission and cost, on a common integer scale
  // ---------------------------------------------------------------------------

  /** The proportional plus fixed part, times BP. */
  function ExactLine(terms: RuleTerms, price: nat): nat {
    terms.Rate() * price + terms.FixedPart() * 10_000
  }

  function Min(a: int, b: int): int { if a <= b then a else b }

  function Max(a: int, b: int): int { if a >= b then a else b }

  /** The commission before rounding, times BP. */
  function ExactCommission(terms: RuleTerms, price: nat): int {
    var floored := if terms.minCents.Some? then Max(ExactLine(terms, price), 10_000 * terms.minCents.value)
        else ExactLine(terms, price);
    var capped := if terms.maxCents.Some? then Min(floored, 10_000 * terms.maxCents.value) else floored;
    Min(capped, 10_000 * price)
  }

  lemma CommissionRounding(terms: RuleTerms, price: nat)
    ensures -10_000 <= 20_000 * terms.Commission(price) - 2 * ExactCommission(terms, price) <= 10_000
  {
    assert terms.Rate() * price == price * terms.Rate();
    if !terms.kind.Fixed? { HalfUp(price, terms.rateBp); }
    var proportional := if terms.kind.Fixed? then 0 else ApplyBp(price, terms.rateBp);
    assert -10_000 <= 20_000 * proportional - 2 * (price * terms.Rate()) <= 10_000;
  }

  /** The slope and the constant of the cost before rounding, times BP cubed. */
  function CostSlope(fee: ProviderFee): nat {
    (10_000 + fee.commissionBp) * ((10_000 + fee.serviceBp) * fee.rateBp)
  }

  function CostConstant(fee: ProviderFee): nat {
    (10_000 + fee.commissionBp) * (100_000_000 * fee.fixedCents)
  }

  function ExactCost(price: nat, fee: ProviderFee): nat {
    CostSlope(fee) * price + CostConstant(fee)
  }

  /** How much the three roundings of the cost can add up to. */
  function Spread(fee: ProviderFee): nat {
    (10_000 + fee.commissionBp) * (10_000 + fee.rateBp)
  }

  lemma CostRounding(price: nat, fee: ProviderFee)
    ensures var error := 2_000_000_000_000 * ProviderCost(price, fee) - 2 * ExactCost(price, fee);
            -(10_000 * Spread(fee) + 1_000_000_000_000) <= error <= 10_000 * Spread(fee) + 1_000_000_000_000
  {
    var charge, k := WithTax(price, fee.serviceBp), 10_000 + fee.commissionBp;
    var charged := ApplyBp(charge, fee.rateBp) + fee.fixedCents;
    var chargeExact := (10_000 + fee.serviceBp) * price;
    var feeExact := chargeExact * fee.rateBp + 100_000_000 * fee.fixedCents;
    var feeBound := 10_000 * (10_000 + fee.rateBp);
    assert -feeBound <= 200_000_000 * charged - 2 * feeExact <= feeBound by {
      TaxRounding(price, fee.serviceBp);
      FeeRounding(charge, chargeExact, fee);
    }
    ScaleBounds(200_000_000 * charged - 2 * feeExact, feeBound, k);
    assert -10_000 <= 20_000 * ProviderCost(price, fee) - 2 * (k * charged) <= 10_000 by {
      TaxRounding(charged, fee.commissionBp);
    }
    FinalScale(ProviderCost(price, fee), charged, feeExact, k, 10_000 + fee.rateBp);
    CostLine(price, fee, chargeExact);
  }

  lemma TaxRounding(amount: nat, taxBp: nat)
    ensures -10_000 <= 20_000 * WithTax(amount, taxBp) - 2 * ((10_000 + taxBp) * amount) <= 10_000
  {
    HalfUp(amount, taxBp);
    assert (10_000 + taxBp) * amount == 10_000 * amount + amount * taxBp;
  }

  lemma FeeRounding(charge: nat, chargeExact: nat, fee: ProviderFee)
    requires -10_000 <= 20_000 * charge - 2 * chargeExact <= 10_000
    ensures var charged := ApplyBp(charge, fee.rateBp) + fee.fixedCents;
            var feeExact := chargeExact * fee.rateBp + 100_000_000 * fee.fixedCents;
            -(10_000 * (10_000 + fee.rateBp)) <= 200_000_000 * charged - 2 * feeExact <= 10_000 * (10_000 + fee.rateBp)
  {
    var r := fee.rateBp;
    HalfUp(charge, r);
    ScaleBounds(20_000 * charge - 2 * chargeExact, 10_000, r);
    assert (20_000 * charge - 2 * chargeExact) * r == 20_000 * (charge * r) - 2 * (chargeExact * r);
  }

  lemma ScaleBounds(x: int, bound: int, k: nat)
    requires -bound <= x <= bound
    ensures -(bound * k) <= x * k <= bound * k
  {
    MulMono(x, bound, k);
    MulMono(-bound, x, k);
  }

  lemma CostLine(price: nat, fee: ProviderFee, chargeExact: nat)
    requires chargeExact == (10_000 + fee.serviceBp) * price
    ensures ExactCost(price, fee)
         == (chargeExact * fee.rateBp + 100_000_000 * fee.fixedCents) * (10_000 + fee.commissionBp)
  {
    var k := 10_000 + fee.commissionBp;
    var s := (10_000 + fee.serviceBp) * fee.rateBp;
    assert chargeExact * fee.rateBp == s * price;
    assert (k * s) * price == k * (s * price);
  }

  lemma FinalScale(cost: int, charged: int, feeExact: int, k: int, w: int)
    requires -10_000 <= 20_000 * cost - 2 * (k * charged) <= 10_000
    requires -(10_000 * w * k) <= (200_000_000 * charged - 2 * feeExact) * k <= 10_000 * w * k
    ensures -(10_000 * (k * w) + 1_000_000_000_000) <= 2_000_000_000_000 * cost
        - 2 * (feeExact * k) <= 10_000 * (k * w) + 1_000_000_000_000
  {
    assert (200_000_000 * charged - 2 * feeExact) * k == 200_000_000 * (k * charged) - 2 * (feeExact * k);
    assert 10_000 * w * k == 10_000 * (k * w);
  }

  // ---------------------------------------------------------------------------
  // Between two candidates the margin has no valley
  // ---------------------------------------------------------------------------

  /** Exact commission minus exact cost, times BP cubed. */
  function Margin(terms: RuleTerms, price: nat, fee: ProviderFee): int {
    100_000_000 * ExactCommission(terms, price) - ExactCost(price, fee)
  }

  /** The minimum is not in force at `price` (or there is none). */
  predicate AboveMinimum(terms: RuleTerms, price: nat) {
    terms.minCents.Some? ==> ExactLine(terms, price) >= 10_000 * terms.minCents.value
  }

  /** The minimum is in force at `price`. */
  predicate AtMinimum(terms: RuleTerms, price: nat) {
    terms.minCents.Some? && ExactLine(terms, price) <= 10_000 * terms.minCents.value
  }

  lemma LineBetween(slope: int, constant: int, a: nat, p: nat, b: nat)
    requires a <= p <= b
    ensures slope * p + constant >= Min(slope * a + constant, slope * b + constant)
  {
    assert slope >= 0 ==> slope * (p - a) >= 0;
    assert slope < 0 ==> slope * (p - b) >= 0;
  }

  /** A line above `atA` and `atB` at both ends keeps its distance to another line above the lower end's. */
  lemma LineKeepsDistance(slope: int, constant: int, slope': int, constant': int, atA: int, atB: int, a: nat,
      p: nat, b: nat)
    requires a <= p <= b
    requires atA <= slope * a + constant && atB <= slope * b + constant
    ensures 100_000_000 * (slope * p + constant) - (slope' * p + constant')
            >= Min(100_000_000 * atA - (slope' * a + constant'), 100_000_000 * atB - (slope' * b + constant'))
  {
    var s, c := 100_000_000 * slope - slope', 100_000_000 * constant - constant';
    LineBetween(s, c, a, p, b);
    assert s * a == 100_000_000 * (slope * a) - slope' * a;
    assert s * b == 100_000_000 * (slope * b) - slope' * b;
    assert s * p == 100_000_000 * (slope * p) - slope' * p;
  }

  lemma LineKeepsMargin(terms: RuleTerms, slope: int, constant: int, a: nat, p: nat, b: nat, fee: ProviderFee)
    requires a <= p <= b
    requires ExactCommission(terms, a) <= slope * a + constant && ExactCommission(terms, b) <= slope * b + constant
    ensures 100_000_000 * (slope * p + constant) - ExactCost(p, fee)
         >= Min(Margin(terms, a, fee), Margin(terms, b, fee))
  {
    LineKeepsDistance(slope, constant, CostSlope(fee), CostConstant(fee),
                      ExactCommission(terms, a), ExactCommission(terms, b), a, p, b);
  }

  /** On one side of the minimum's kink the commission is the lowest of straight lines. */
  lemma MarginBetween(terms: RuleTerms, a: nat, p: nat, b: nat, fee: ProviderFee)
    requires a <= p <= b
    requires (AboveMinimum(terms, a) && AboveMinimum(terms, p) && AboveMinimum(terms, b))
             || (AtMinimum(terms, a) && AtMinimum(terms, p) && AtMinimum(terms, b))
    ensures Margin(terms, p, fee) >= Min(Margin(terms, a, fee), Margin(terms, b, fee))
  {
    var value := ExactCommission(terms, p);
    if value == 10_000 * p {
      LineKeepsMargin(terms, 10_000, 0, a, p, b, fee);
    } else if terms.maxCents.Some? && value == 10_000 * terms.maxCents.value {
      LineKeepsMargin(terms, 0, 10_000 * terms.maxCents.value, a, p, b, fee);
    } else if AboveMinimum(terms, p) && AboveMinimum(terms, a) && AboveMinimum(terms, b) {
      LineKeepsMargin(terms, terms.Rate(), terms.FixedPart() * 10_000, a, p, b, fee);
    } else {
      LineKeepsMargin(terms, 0, 10_000 * terms.minCents.value, a, p, b, fee);
    }
  }

  /** The kink separates the prices where the minimum is in force from those where it is not. */
  lemma KinkSeparates(terms: RuleTerms, price: nat)
    requires terms.Rate() > 0 && terms.minCents.Some? && terms.minCents.value > terms.FixedPart()
    ensures var k := Kink(terms, terms.minCents.value);
            (price <= k ==> AtMinimum(terms, price)) && (price > k ==> AboveMinimum(terms, price))
  {
    var target := (terms.minCents.value - terms.FixedPart()) * 10_000;
    var k := Kink(terms, terms.minCents.value);
    assert target == terms.Rate() * k + target % terms.Rate();
    MulMono(price, k, terms.Rate());
    MulMono(k + 1, price, terms.Rate());
  }

  /** Two candidates enclose every price on its own side of the kink. */
  lemma Enclosed(terms: RuleTerms, lo: nat, p: nat, hi: nat, fee: ProviderFee) returns (a: nat, b: nat)
    requires lo <= p <= hi
    ensures a in Candidates(terms, lo, hi) && b in Candidates(terms, lo, hi)
    ensures Margin(terms, p, fee) >= Min(Margin(terms, a, fee), Margin(terms, b, fee))
  {
    a, b := lo, hi;
    assert lo in Points(terms, lo, hi) && hi in Points(terms, lo, hi);
    if terms.Rate() > 0 && terms.minCents.Some? && terms.minCents.value > terms.FixedPart() {
      var k := Kink(terms, terms.minCents.value);
      assert k in Points(terms, lo, hi);
      KinkSeparates(terms, lo);
      KinkSeparates(terms, hi);
      KinkSeparates(terms, p);
      if p <= k {
        if k < hi { b := k; KinkSeparates(terms, k); }
      } else {
        if k + 1 > lo { a := k + 1; KinkSeparates(terms, k + 1); }
      }
    } else {
      NoKink(terms, lo);
      NoKink(terms, p);
      NoKink(terms, hi);
    }
    MarginBetween(terms, a, p, b, fee);
  }

  lemma NoKink(terms: RuleTerms, price: nat)
    requires !(terms.Rate() > 0 && terms.minCents.Some? && terms.minCents.value > terms.FixedPart())
    ensures if terms.minCents.Some? && terms.minCents.value > terms.FixedPart()
            then AtMinimum(terms, price) else AboveMinimum(terms, price)
  {
  }

  // ---------------------------------------------------------------------------
  // What the finite check guarantees
  // ---------------------------------------------------------------------------

  /** What rounding adds to the commission, times 2 BP. */
  function CommissionError(terms: RuleTerms, price: nat): (e: int)
    ensures -10_000 <= e <= 10_000
  {
    CommissionRounding(terms, price);
    20_000 * terms.Commission(price) - 2 * ExactCommission(terms, price)
  }

  /** What rounding adds to the cost, times 2 BP cubed. */
  function CostError(price: nat, fee: ProviderFee): (e: int)
    ensures -(10_000 * Spread(fee) + 1_000_000_000_000) <= e <= 10_000 * Spread(fee) + 1_000_000_000_000
  {
    CostRounding(price, fee);
    2_000_000_000_000 * ProviderCost(price, fee) - 2 * ExactCost(price, fee)
  }

  lemma RoundedMargin(terms: RuleTerms, price: nat, fee: ProviderFee)
    ensures 2_000_000_000_000 * (terms.Commission(price) - ProviderCost(price, fee)) - 2 * Margin(terms, price, fee)
            == 100_000_000 * CommissionError(terms, price) - CostError(price, fee)
  {
  }

  lemma MarginRounding(terms: RuleTerms, price: nat, fee: ProviderFee)
    ensures var gap := 2_000_000_000_000 * (terms.Commission(price) - ProviderCost(price, fee))
        - 2 * Margin(terms, price, fee);
            -(2_000_000_000_000 + 10_000 * Spread(fee)) <= gap <= 2_000_000_000_000 + 10_000 * Spread(fee)
  {
    RoundedMargin(terms, price, fee);
  }

  /** A covered price has a margin that only rounding can have eaten into. */
  lemma CoveredMargin(terms: RuleTerms, price: nat, fee: ProviderFee)
    ensures Covers(terms, price, fee) ==>
              2 * Margin(terms, price, fee) >= -(2_000_000_000_000 + 10_000 * Spread(fee))
  {
    MarginRounding(terms, price, fee);
  }

  lemma ShortfallFromMargin(terms: RuleTerms, price: nat, fee: ProviderFee)
    requires 2 * Margin(terms, price, fee) >= -(2_000_000_000_000 + 10_000 * Spread(fee))
    ensures 100_000_000 * (ProviderCost(price, fee) - terms.Commission(price)) <= 200_000_000 + Spread(fee)
  {
    MarginRounding(terms, price, fee);
    var short, spread := ProviderCost(price, fee) - terms.Commission(price), Spread(fee);
    assert 2_000_000_000_000 * short <= 2 * (2_000_000_000_000 + 10_000 * spread);
  }

  /**
   When the check passes, the commission at every price of the range is short of the cost by at most
   2 + (1 + fee rate) * (1 + tax) cents: only roundings can open a gap between candidates.
   */
  lemma CheckBoundsShortfall(terms: RuleTerms, lo: nat, hi: nat, fee: ProviderFee, price: nat)
    requires Checked(terms, lo, hi, fee) && lo <= price <= hi
    ensures 100_000_000 * (ProviderCost(price, fee) - terms.Commission(price)) <= 200_000_000 + Spread(fee)
  {
    var a, b := Enclosed(terms, lo, price, hi, fee);
    CoveredMargin(terms, a, fee);
    CoveredMargin(terms, b, fee);
    ShortfallFromMargin(terms, price, fee);
  }

  /** At the default fee the shortfall is at most three cents. */
  lemma CheckCoversWithinThreeCents(terms: RuleTerms, lo: nat, hi: nat, price: nat)
    requires Checked(terms, lo, hi, DEFAULT_FEE) && lo <= price <= hi
    ensures terms.Commission(price) >= ProviderCost(price, DEFAULT_FEE) - 3
  {
    CheckBoundsShortfall(terms, lo, hi, DEFAULT_FEE, price);
    assert Spread(DEFAULT_FEE) == 120_176_000;
  }

  /** A rule that covers its whole range always passes: the check raises no false alarm. */
  lemma CoveredRangePasses(terms: RuleTerms, lo: nat, hi: nat, fee: ProviderFee)
    requires forall p :: lo <= p <= hi ==> Covers(terms, p, fee)
    ensures Checked(terms, lo, hi, fee)
  {
    forall p | p in Candidates(terms, lo, hi) ensures Covers(terms, p, fee) {
      assert lo <= p <= hi;
    }
  }

  // ---------------------------------------------------------------------------
  // When the finite check does guarantee coverage
  // ---------------------------------------------------------------------------

  /** The check with cents to spare: every candidate is covered, and `spare` cents are left. */
  ghost predicate CheckedWithSpare(terms: RuleTerms, lo: nat, hi: nat, fee: ProviderFee, spare: nat) {
    forall p :: p in Candidates(terms, lo, hi) ==> terms.Commission(p) >= ProviderCost(p, fee) + spare
  }

  /** Passing the check with so many cents to spare guarantees that every price of the range is covered. */
  ghost predicate SpareGuarantees(fee: ProviderFee, spare: nat) {
    forall terms, lo, hi, price ::
      CheckedWithSpare(terms, lo, hi, fee, spare) && lo <= price <= hi ==> Covers(terms, price, fee)
  }

  lemma SpareMargin(terms: RuleTerms, price: nat, fee: ProviderFee, spare: nat)
    ensures terms.Commission(price) >= ProviderCost(price, fee) + spare ==>
              2 * Margin(terms, price, fee) >= 2_000_000_000_000 * spare - (2_000_000_000_000 + 10_000 * Spread(fee))
  {
    MarginRounding(terms, price, fee);
  }

  /** What is spared at the candidates and exceeds the roundings between them is enough, at any fee. */
  lemma SpareCovers(terms: RuleTerms, lo: nat, hi: nat, fee: ProviderFee, spare: nat, price: nat)
    requires CheckedWithSpare(terms, lo, hi, fee, spare) && lo <= price <= hi
    requires 100_000_000 * spare > 100_000_000 + Spread(fee)
    ensures Covers(terms, price, fee)
  {
    var a, b := Enclosed(terms, lo, price, hi, fee);
    SpareMargin(terms, a, fee, spare);
    SpareMargin(terms, b, fee, spare);
    MarginRounding(terms, price, fee);
  }

  function PlainRule(rate: nat, fixed: nat): RuleTerms {
    RuleTerms(PercentPlusFixed, rate, fixed, None, None)
  }

  lemma SmallKink(rate: nat, fixed: nat)
    requires rate < 1_000 && fixed < 1_000
    ensures FloorDiv(fixed * 10_000, 10_000 - rate) < 1_200
  {
    var kink := FloorDiv(fixed * 10_000, 10_000 - rate);
    assert kink * (10_000 - rate) <= fixed * 10_000;
    MulMono(1_200, kink, 10_000 - rate);
  }

  /** Such a rule has no minimum or maximum: its candidates are the ends of the range and their neighbours. */
  lemma PlainRuleCandidates(rate: nat, fixed: nat, lo: nat, hi: nat)
    requires rate < 1_000 && fixed < 1_000 && 2_000 <= lo < hi
    ensures Candidates(PlainRule(rate, fixed), lo, hi) <= {lo, lo + 1, hi - 1, hi}
  {
    SmallKink(rate, fixed);
    var kink := FloorDiv(fixed * 10_000, 10_000 - rate);
    assert Points(PlainRule(rate, fixed), lo, hi) == {lo, hi, kink};
  }

  lemma PlainRuleSpared(rate: nat, fixed: nat, lo: nat, hi: nat, fee: ProviderFee, spare: nat)
    requires rate < 1_000 && fixed < 1_000 && 2_000 <= lo < hi
    requires forall p :: p in {lo, lo + 1, hi - 1, hi} ==>
                           PlainRule(rate, fixed).Commission(p) >= ProviderCost(p, fee) + spare
    ensures CheckedWithSpare(PlainRule(rate, fixed), lo, hi, fee, spare)
  {
    hide ProviderCost, ApplyBp;
    PlainRuleCandidates(rate, fixed, lo, hi);
  }

  lemma PlainRuleChecked(rate: nat, fixed: nat, lo: nat, hi: nat, fee: ProviderFee)
    requires rate < 1_000 && fixed < 1_000 && 2_000 <= lo < hi
    requires forall p :: p in {lo, lo + 1, hi - 1, hi} ==> Covers(PlainRule(rate, fixed), p, fee)
    ensures Checked(PlainRule(rate, fixed), lo, hi, fee)
  {
    hide ProviderCost, ApplyBp;
    PlainRuleCandidates(rate, fixed, lo, hi);
  }

  /** Half-up rounding checked against given results, for one price. */
  lemma MarginAt(rate: nat, fixed: nat, price: nat, commission: nat, charge: nat, charged: nat, cost: nat)
    requires fixed <= commission <= price && -10_000 < 20_000 * (commission - fixed) - 2 * (price * rate) <= 10_000
    requires charge >= price && -10_000 < 20_000 * (charge - price) - 2 * (price * 1600) <= 10_000
    requires charged >= 300 && -10_000 < 20_000 * (charged - 300) - 2 * (charge * 360) <= 10_000
    requires cost >= charged && -10_000 < 20_000 * (cost - charged) - 2 * (charged * 1600) <= 10_000
    ensures PlainRule(rate, fixed).Commission(price) == commission && ProviderCost(price, DEFAULT_FEE) == cost
    ensures Covers(PlainRule(rate, fixed), price, DEFAULT_FEE) <==> commission >= cost
  {
    HalfUpUnique(price, rate, commission - fixed);
    HalfUpUnique(price, 1600, charge - price);
    HalfUpUnique(charge, 360, charged - 300);
    HalfUpUnique(charged, 1600, cost - charged);
  }

  /** This rule has two cents to spare at every candidate of 50.00 to 354.04, and is one cent short at 352.37. */
  lemma TwoSpareCentsAreNotEnough()
    ensures CheckedWithSpare(PlainRule(484, 350), 5_000, 35_404, DEFAULT_FEE, 2)
    ensures PlainRule(484, 350).Commission(35_237) == ProviderCost(35_237, DEFAULT_FEE) - 1
  {
    hide ProviderCost, ApplyBp, Candidates;
    MarginAt(484, 350, 5_000, 592, 5_800, 509, 590);
    MarginAt(484, 350, 5_001, 592, 5_801, 509, 590);
    MarginAt(484, 350, 35_403, 2_064, 41_067, 1_778, 2_062);
    MarginAt(484, 350, 35_404, 2_064, 41_069, 1_778, 2_062);
    PlainRuleSpared(484, 350, 5_000, 35_404, DEFAULT_FEE, 2);
    MarginAt(484, 350, 35_237, 2_055, 40_875, 1_772, 2_056);
  }

  /**
   At the default fee the finite check guarantees that a whole range is covered, for every rule and every
   range, exactly when it is made with three cents to spare or more. The platform makes it with none.
   */
  lemma ThreeSpareCentsExactly(spare: nat)
    ensures SpareGuarantees(DEFAULT_FEE, spare) <==> spare >= 3
    ensures
      forall terms, lo, hi ::
        Checked(terms, lo, hi, DEFAULT_FEE) <==> CheckedWithSpare(terms, lo, hi, DEFAULT_FEE, 0)
  {
    if spare >= 3 {
      assert Spread(DEFAULT_FEE) == 120_176_000;
      forall terms, lo, hi, price | CheckedWithSpare(terms, lo, hi, DEFAULT_FEE, spare) && lo <= price <= hi
        ensures Covers(terms, price, DEFAULT_FEE)
      {
        SpareCovers(terms, lo, hi, DEFAULT_FEE, spare, price);
      }
    } else {
      TwoSpareCentsAreNotEnough();
      assert CheckedWithSpare(PlainRule(484, 350), 5_000, 35_404, DEFAULT_FEE, spare);
      assert !Covers(PlainRule(484, 350), 35_237, DEFAULT_FEE);
    }
  }

  /** The cost never falls when the price rises. */
  lemma CostRises(p: nat, q: nat, fee: ProviderFee)
    requires p <= q
    ensures ProviderCost(p, fee) <= ProviderCost(q, fee)
  {
    hide ApplyBp;
    var c, d := WithTax(p, fee.serviceBp), WithTax(q, fee.serviceBp);
    RoundingRises(p, q, fee.serviceBp);
    RoundingRises(c, d, fee.rateBp);
    RoundingRises(ApplyBp(c, fee.rateBp) + fee.fixedCents, ApplyBp(d, fee.rateBp) + fee.fixedCents, fee.commissionBp);
  }

  lemma RoundingRises(p: nat, q: nat, rate: nat)
    requires p <= q
    ensures ApplyBp(p, rate) <= ApplyBp(q, rate)
  {
    MulMono(p, q, rate);
    HalfUp(p, rate);
    HalfUp(q, rate);
  }

  /** For a rule without a proportional part that no price of the range caps, the check as it is made is exact. */
  lemma ConstantRuleExactly(terms: RuleTerms, lo: nat, hi: nat, fee: ProviderFee)
    requires terms.Rate() == 0 && lo <= hi && terms.Raw(lo) <= lo
    ensures Checked(terms, lo, hi, fee) <==> forall p :: lo <= p <= hi ==> Covers(terms, p, fee)
  {
    if Checked(terms, lo, hi, fee) {
      assert hi in Points(terms, lo, hi) && hi in Candidates(terms, lo, hi);
      forall p | lo <= p <= hi ensures Covers(terms, p, fee) {
        ConstantCommission(terms, lo, p);
        ConstantCommission(terms, lo, hi);
        CostRises(p, hi, fee);
      }
    } else {
      var p :| p in Candidates(terms, lo, hi) && !Covers(terms, p, fee);
      assert lo <= p <= hi;
    }
  }

  lemma ConstantCommission(terms: RuleTerms, lo: nat, p: nat)
    requires terms.Rate() == 0 && terms.Raw(lo) <= lo <= p
    ensures terms.Commission(p) == terms.Raw(lo)
  {
    assert ApplyBp(lo, 0) == ApplyBp(p, 0) == 0;
  }

  /** Three cents are needed: this rule passes on the range 50.00 to 354.04 and is three cents short at 352.37. */
  lemma ThreeCentsAreNeeded()
    ensures Checked(PlainRule(484, 348), 5_000, 35_404, DEFAULT_FEE)
    ensures PlainRule(484, 348).Commission(35_237) == ProviderCost(35_237, DEFAULT_FEE) - 3
  {
    MarginAt(484, 348, 5_000, 590, 5_800, 509, 590);
    MarginAt(484, 348, 5_001, 590, 5_801, 509, 590);
    MarginAt(484, 348, 35_403, 2_062, 41_067, 1_778, 2_062);
    MarginAt(484, 348, 35_404, 2_062, 41_069, 1_778, 2_062);
    PlainRuleChecked(484, 348, 5_000, 35_404, DEFAULT_FEE);
    MarginAt(484, 348, 35_237, 2_053, 40_875, 1_772, 2_056);
  }

  /** On the default range itself the check also lets a gap through: two cents at 50.17. */
  lemma DefaultRangeHasGap()
    ensures Checked(PlainRule(485, 347), MIN_SERVICE_CENTS, MAX_SERVICE_CENTS, DEFAULT_FEE)
    ensures PlainRule(485, 347).Commission(5_017) == ProviderCost(5_017, DEFAULT_FEE) - 2
  {
    MarginAt(485, 347, 5_000, 590, 5_800, 509, 590);
    MarginAt(485, 347, 5_001, 590, 5_801, 509, 590);
    MarginAt(485, 347, 49_999_999, 2_425_347, 57_999_999, 2_088_300, 2_422_428);
    MarginAt(485, 347, 50_000_000, 2_425_347, 58_000_000, 2_088_300, 2_422_428);
    PlainRuleChecked(485, 347, MIN_SERVICE_CENTS, MAX_SERVICE_CENTS, DEFAULT_FEE);
    MarginAt(485, 347, 5_017, 590, 5_820, 510, 592);
  }
}
