/**
 The commission engine: whole cents, half-up rounding, and the split of one charge between the
 technician, the platform and the tax authority.
 */
module Commission {
  import opened Results

  /** One hundred percent, in basis points. */
  const BP: int := 10_000

  /** `amount * rate / 10 000`, rounded half-up to the cent. */
  function ApplyBp(amount: nat, rate: nat): nat {
    (amount * rate * 2 + 10_000) / 20_000
  }

  /** The rounded value is the integer nearest to the exact one, ties upwards. */
  lemma HalfUp(amount: nat, rate: nat)
    ensures 20_000 * ApplyBp(amount, rate) - 10_000 <= 2 * (amount * rate) < 20_000 * ApplyBp(amount, rate) + 10_000
  {
  }

  /** Half-up rounding has one result. */
  lemma HalfUpUnique(amount: nat, rate: nat, r: nat)
    requires 20_000 * r - 10_000 <= 2 * (amount * rate) < 20_000 * r + 10_000
    ensures ApplyBp(amount, rate) == r
  {
  }

  function DivHalfUp(numerator: nat, denominator: nat): (r: nat)
    requires denominator > 0
  {
    (numerator * 2 + denominator) / (2 * denominator)
  }

  /** What the client is charged for a price that is quoted without tax. */
  function WithTax(price: nat, taxBp: nat): nat {
    price + ApplyBp(price, taxBp)
  }

  datatype CommissionType = Percent | Fixed | PercentPlusFixed

  datatype RuleTerms = RuleTerms(kind: CommissionType, rateBp: nat, fixedCents: nat, minCents: Option<nat>,
      maxCents: Option<nat>)
  {
    /** The rate and the fixed part that the rule's type lets through. */
    function Rate(): nat {
      if kind.Fixed? then 0 else rateBp
    }

    function FixedPart(): nat {
      if kind.Percent? then 0 else fixedCents
    }

    function Raw(price: nat): nat {
      var value := (if kind.Fixed? then 0 else ApplyBp(price, rateBp)) + FixedPart();
      var floored := if minCents.Some? && value < minCents.value then minCents.value else value;
      if maxCents.Some? && maxCents.value < floored then maxCents.value else floored
    }

    function Commission(price: nat): (r: nat)
      ensures r <= price
    {
      if Raw(price) <= price then Raw(price) else price
    }
  }

  datatype TaxRates = TaxRates(serviceBp: nat, commissionBp: nat, isrBp: nat, ivaBp: nat)

  /** The configuration admits no rate above 100 %. */
  predicate RatesInRange(taxes: TaxRates) {
    taxes.serviceBp <= 10_000 && taxes.commissionBp <= 10_000 && taxes.isrBp <= 10_000 && taxes.ivaBp <= 10_000
  }

  datatype BreakdownRow = BreakdownRow(
    price: int, serviceTax: int, gross: int, discount: int, commission: int, commissionTax: int,
    isr: int, iva: int, technician: int, terms: RuleTerms, taxes: TaxRates)
  {
    function Charge(): int {
      gross - discount
    }

    function Withheld(): int {
      isr + iva
    }
  }

  /** The CHECK constraints of the stored breakdown. */
  predicate RowAdmitted(b: BreakdownRow) {
    && b.price > 0 && b.serviceTax >= 0 && b.discount >= 0 && b.commission >= 0 && b.commissionTax >= 0
    && b.isr >= 0 && b.iva >= 0 && b.technician >= 0
    && b.gross == b.price + b.serviceTax
    && b.discount < b.gross
    && b.technician + b.commission + b.commissionTax + b.isr + b.iva == b.gross - b.discount
  }

  const NO_COMMISSION := RuleTerms(Percent, 0, 0, None, None)
  const NO_TAXES := TaxRates(0, 0, 0, 0)

  type Breakdown = b: BreakdownRow | RowAdmitted(b)
    witness BreakdownRow(1, 0, 1, 0, 0, 0, 0, 0, 1, NO_COMMISSION, NO_TAXES)

  lemma MulMono(x: int, y: int, k: nat)
    ensures x <= y ==> k * x <= k * y
  {
    assert x <= y ==> k * (y - x) >= 0;
  }

  lemma DivHalfUpBounds(n: nat, d: nat)
    requires d > 0
    ensures 2 * d * DivHalfUp(n, d) - d <= 2 * n < 2 * d * DivHalfUp(n, d) + d
  {
    var q := DivHalfUp(n, d);
    assert 2 * n + d == 2 * d * q + (2 * n + d) % (2 * d);
  }

  lemma AdjustedWithinTarget(target: nat, commissionBp: nat)
    ensures DivHalfUp(target * 10_000, 10_000 + commissionBp) <= target
  {
    var r, d := DivHalfUp(target * 10_000, 10_000 + commissionBp), 10_000 + commissionBp;
    DivHalfUpBounds(target * 10_000, d);
    MulMono(target + 1, r, d);
    assert d * (target + 1) == 10_000 * target + commissionBp * target + d;
  }

  /** What is left of a fee of commission plus tax is split so that the tax stays proportional: the commission. */
  function AdjustedCommission(target: nat, commissionBp: nat): (r: nat)
    ensures r <= target
  {
    AdjustedWithinTarget(target, commissionBp);
    DivHalfUp(target * 10_000, 10_000 + commissionBp)
  }

  function Compute(price: int, terms: RuleTerms, taxes: TaxRates, discount: int := 0): (r: Result<Breakdown>)
    ensures r.Ok? ==>
              && r.value.price == price && r.value.discount == discount
              && r.value.terms == terms && r.value.taxes == taxes
              && 0 < price && r.value.gross == WithTax(price, taxes.serviceBp)
  {
    if price <= 0 then Err(InvalidAmount)
    else if discount < 0 then Err(InvalidDiscount)
    else
      var serviceTax := ApplyBp(price, taxes.serviceBp);
      var gross := price + serviceTax;
      var fullCommission := terms.Commission(price);
      var fee := fullCommission + ApplyBp(fullCommission, taxes.commissionBp);
      var isr := ApplyBp(price, taxes.isrBp);
      var iva := ApplyBp(price, taxes.ivaBp);
      if discount > 0 && discount > fee then Err(DiscountExceedsCommission)
      else
        var commission :=
          if discount == 0 then fullCommission else AdjustedCommission(fee - discount, taxes.commissionBp);
        var commissionTax := fee - discount - commission;
        var technician := gross - discount - commission - commissionTax - isr - iva;
        if technician < 0 then Err(SplitNegative)
        else if discount >= gross then Err(ConstraintViolation)
        else Ok(BreakdownRow(price, serviceTax, gross, discount, commission, commissionTax, isr, iva, technician,
            terms, taxes))
  }

  // ---------------------------------------------------------------------------
  // What a split holds
  // ---------------------------------------------------------------------------

  /** `r` is the whole number nearest to `rate` basis points of `amount`, ties upwards. */
  predicate Nearest(r: int, amount: int, rate: int) {
    20_000 * r - 10_000 <= 2 * (amount * rate) < 20_000 * r + 10_000
  }

  /**
   The commission of a rule is its rounded share of the price plus its fixed part, each if the rule's type has
   it; it is lowered only to a cap, the price or the rule's maximum, and raised only to the rule's minimum.
   */
  lemma RuleCommission(terms: RuleTerms, price: nat, share: nat)
    requires Nearest(share, price, if terms.kind.Fixed? then 0 else terms.rateBp)
    ensures var wanted, c := share + (if terms.kind.Percent? then 0 else terms.fixedCents), terms.Commission(price);
            var capped := c == price || terms.maxCents == Some(c);
            && c <= price && (terms.maxCents.Some? ==> c <= terms.maxCents.value)
            && (c < wanted ==> capped)
            && (c > wanted ==> terms.minCents.Some? && c <= terms.minCents.value)
            && (terms.minCents.Some? && c < terms.minCents.value ==> capped)
  {
    HalfUpUnique(price, if terms.kind.Fixed? then 0 else terms.rateBp, share);
    hide ApplyBp;
  }

  /**
   In every split each tax is its own rate of its own base, rounded on its own: the service tax and both
   withholdings of the price, and the commission's tax of the commission. The technician gets the rest.
   */
  lemma SplitExplained(price: int, terms: RuleTerms, taxes: TaxRates, discount: int)
    ensures var r := Compute(price, terms, taxes, discount);
            r.Ok? ==>
              var b := r.value;
              && Nearest(b.serviceTax, price, taxes.serviceBp)
              && Nearest(b.isr, price, taxes.isrBp) && Nearest(b.iva, price, taxes.ivaBp)
              && b.technician == price + b.serviceTax - discount - b.commission - b.commissionTax - b.isr - b.iva
              && (discount == 0 ==>
                    && b.commission == terms.Commission(price)
                    && Nearest(b.commissionTax, b.commission, taxes.commissionBp))
  {
    if price > 0 {
      HalfUp(price, taxes.serviceBp);
      HalfUp(price, taxes.isrBp);
      HalfUp(price, taxes.ivaBp);
      HalfUp(terms.Commission(price), taxes.commissionBp);
    }
    hide ApplyBp, AdjustedCommission;
  }

  /** Without a discount there is a split exactly when the price carries its commission, taxes and withholdings. */
  lemma SplitExists(price: int, terms: RuleTerms, taxes: TaxRates, serviceTax: nat, commissionTax: nat, isr: nat,
      iva: nat)
    requires price > 0
    requires Nearest(serviceTax, price, taxes.serviceBp)
    requires Nearest(commissionTax, terms.Commission(price), taxes.commissionBp)
    requires Nearest(isr, price, taxes.isrBp) && Nearest(iva, price, taxes.ivaBp)
    ensures var r := Compute(price, terms, taxes);
            && (r.Ok? <==> terms.Commission(price) + commissionTax + isr + iva <= price + serviceTax)
            && (r.Err? ==> r.error == SplitNegative)
  {
    HalfUpUnique(price, taxes.serviceBp, serviceTax);
    HalfUpUnique(terms.Commission(price), taxes.commissionBp, commissionTax);
    HalfUpUnique(price, taxes.isrBp, isr);
    HalfUpUnique(price, taxes.ivaBp, iva);
    hide ApplyBp;
  }

  // ---------------------------------------------------------------------------
  // Platform discounts: the technician never notices them
  // ---------------------------------------------------------------------------

  /** Commission plus its tax, before any discount. */
  function FullFee(price: nat, terms: RuleTerms, taxes: TaxRates): nat {
    terms.Commission(price) + ApplyBp(terms.Commission(price), taxes.commissionBp)
  }

  /**
   A discount is admitted exactly when the undiscounted split exists and the fee covers it, and then
   it comes out of the platform's fee to the cent: the technician and the withholdings keep their amounts.
   */
  lemma DiscountNeutral(price: nat, terms: RuleTerms, taxes: TaxRates, discount: nat)
    requires price > 0
    ensures var plain, cut := Compute(price, terms, taxes), Compute(price, terms, taxes, discount);
            && (cut.Ok? <==>
                  plain.Ok? && discount <= FullFee(price, terms, taxes) && discount < WithTax(price, taxes.serviceBp))
            && (cut.Ok? ==>
                  && cut.value.technician == plain.value.technician
                  && cut.value.isr == plain.value.isr && cut.value.iva == plain.value.iva
                  && cut.value.Charge() == plain.value.Charge() - discount
                  && cut.value.commission + cut.value.commissionTax
                     == plain.value.commission + plain.value.commissionTax - discount)
  {
    var plain := Compute(price, terms, taxes);
    assert plain.Ok? ==> plain.value.commission + plain.value.commissionTax == FullFee(price, terms, taxes);
  }

  lemma SplitKeepsTax(c: nat, x: nat, t: nat)
    requires c == AdjustedCommission(c + x, t) && t <= 10_000
    ensures -1 <= x - ApplyBp(c, t) <= 1
  {
    DivHalfUpBounds((c + x) * 10_000, 10_000 + t);
    HalfUp(c, t);
    var product := c * t;
    assert (10_000 + t) * c == 10_000 * c + product;
    assert -10_000 <= 20_000 * x - 2 * product + t <= 3 * 10_000;
  }

  /** The tax left on a discounted commission is the commission rate applied to it, give or take one cent. */
  lemma DiscountedTaxWithinOneCent(price: nat, terms: RuleTerms, taxes: TaxRates, discount: nat)
    requires RatesInRange(taxes)
    ensures var r := Compute(price, terms, taxes, discount);
            r.Ok? ==> -1 <= r.value.commissionTax - ApplyBp(r.value.commission, taxes.commissionBp) <= 1
  {
    var r := Compute(price, terms, taxes, discount);
    if r.Ok? && discount > 0 {
      SplitKeepsTax(r.value.commission, r.value.commissionTax, taxes.commissionBp);
    }
  }

  // ---------------------------------------------------------------------------
  // From a charge back to its price
  // ---------------------------------------------------------------------------

  lemma WithTaxIncreases(p: nat, q: nat, taxBp: nat)
    requires p < q
    ensures WithTax(p, taxBp) + (q - p) <= WithTax(q, taxBp)
  {
    MulMono(p, q, taxBp);
    HalfUp(p, taxBp);
    HalfUp(q, taxBp);
  }

  lemma FloorBounds(n: nat, d: nat)
    requires d > 0
    ensures d * (n / d) <= n < d * (n / d) + d
  {
  }

  /** The floor of the exact inverse is at most one below the answer and never above it. */
  lemma InverseFloor(charge: nat, taxBp: nat)
    ensures var p := charge * 10_000 / (10_000 + taxBp);
            WithTax(p, taxBp) <= charge < WithTax(p + 2, taxBp)
  {
    hide ApplyBp;
    var d := 10_000 + taxBp;
    var p := charge * 10_000 / d;
    var tax := p * taxBp;
    FloorBounds(charge * 10_000, d);
    HalfUp(p, taxBp);
    HalfUp(p + 2, taxBp);
    assert d * p == 10_000 * p + tax;
    assert (p + 2) * taxBp == tax + 2 * taxBp;
  }

  /** The highest price whose charge with tax does not exceed `charge`. */
  function PriceForCharge(charge: nat, taxBp: nat): (price: nat)
    ensures WithTax(price, taxBp) <= charge < WithTax(price + 1, taxBp)
  {
    var p := charge * 10_000 / (10_000 + taxBp);
    InverseFloor(charge, taxBp);
    if WithTax(p + 1, taxBp) <= charge then p + 1 else p
  }

  /** The first correction loop: steps down while the charge with tax is too high. */
  method LowerToFit(start: nat, charge: nat, taxBp: nat) returns (price: nat, steps: nat)
    ensures WithTax(price, taxBp) <= charge
    ensures price + steps == start
    ensures steps == 0 <==> WithTax(start, taxBp) <= charge
  {
    price, steps := start, 0;
    while price > 0 && WithTax(price, taxBp) > charge
      invariant price + steps == start
      invariant steps > 0 ==> WithTax(start, taxBp) > charge
    {
      price := price - 1;
      steps := steps + 1;
    }
  }

  /** The second correction loop: steps up while the next price still fits. */
  method RaiseToFit(start: nat, charge: nat, taxBp: nat) returns (price: nat, steps: nat)
    requires WithTax(start, taxBp) <= charge
    ensures WithTax(price, taxBp) <= charge < WithTax(price + 1, taxBp)
    ensures price == start + steps
  {
    price, steps := start, 0;
    while WithTax(price + 1, taxBp) <= charge
      invariant price == start + steps
      invariant WithTax(price, taxBp) <= charge
      decreases charge - price
    {
      price := price + 1;
      steps := steps + 1;
    }
  }

  /** The first correction loop never runs and the second one runs at most once. */
  method FindPriceForCharge(charge: nat, taxBp: nat) returns (price: nat, lowered: nat, raised: nat)
    ensures price == PriceForCharge(charge, taxBp)
    ensures lowered == 0 && raised <= 1
  {
    var start := charge * 10_000 / (10_000 + taxBp);
    InverseFloor(charge, taxBp);
    price, lowered := LowerToFit(start, charge, taxBp);
    price, raised := RaiseToFit(price, charge, taxBp);
    PriceUnique(charge, taxBp, price);
  }

  lemma PriceUnique(charge: nat, taxBp: nat, price: nat)
    requires WithTax(price, taxBp) <= charge < WithTax(price + 1, taxBp)
    ensures price == PriceForCharge(charge, taxBp)
  {
    var q := PriceForCharge(charge, taxBp);
    if price + 1 < q { WithTaxIncreases(price + 1, q, taxBp); }
    if q + 1 < price { WithTaxIncreases(q + 1, price, taxBp); }
  }

  lemma PriceForChargeInverts(price: nat, taxBp: nat)
    ensures PriceForCharge(WithTax(price, taxBp), taxBp) == price
  {
    WithTaxIncreases(price, price + 1, taxBp);
    PriceUnique(WithTax(price, taxBp), taxBp, price);
  }

  /**
   A partial capture whose answer was lost can be rebuilt from the amount that was really captured:
   the same price, and so the same split, cent by cent.
   */
  lemma SplitRebuiltFromCharge(price: int, terms: RuleTerms, taxes: TaxRates)
    ensures var r := Compute(price, terms, taxes);
            r.Ok? ==> Compute(PriceForCharge(r.value.Charge(), taxes.serviceBp), terms, taxes) == r
  {
    if price > 0 { PriceForChargeInverts(price, taxes.serviceBp); }
  }

  /**
   Capturing `authorized - refund` through the highest price that fits releases the requested refund,
   or exactly one cent more.
   */
  lemma PartialCaptureReleases(authorized: nat, refund: nat, taxBp: nat)
    requires refund <= authorized && taxBp <= 10_000
    ensures var charge := WithTax(PriceForCharge(authorized - refund, taxBp), taxBp);
            authorized - charge == refund || authorized - charge == refund + 1
  {
    var price := PriceForCharge(authorized - refund, taxBp);
    assert (price + 1) * taxBp == price * taxBp + taxBp;
    HalfUp(price, taxBp);
    HalfUp(price + 1, taxBp);
  }
}
