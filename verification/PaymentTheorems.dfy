/** What every run of service calls and provider reports means for the money of one payment. */
module PaymentTheorems {
  import opened Results
  import opened Commission
  import opened Ledger
  import opened Payments
  import opened PaymentInvariants

  // ---------------------------------------------------------------------------
  // Proportional shares
  // ---------------------------------------------------------------------------

  lemma SumOfProducts(t: int, c: int, v: int, w: int, charged: int, amount: int)
    requires t + c + v + w == charged
    ensures t * amount + c * amount + v * amount + w * amount == charged * amount
  {
    assert (t + c + v + w) * amount == t * amount + c * amount + v * amount + w * amount;
  }

  lemma DivideOut(x: int, y: int, k: int)
    requires k > 0
    ensures x * k <= y * k ==> x <= y
    ensures x * k < y * k ==> x < y
  {
  }

  /** Four floor shares of parts that make up the charge leave between zero and three cents. */
  lemma FourSharesFit(t: nat, c: nat, v: nat, w: nat, charged: nat, amount: nat)
    requires t + c + v + w == charged > 0
    ensures var s := Share(t, amount, charged) + Share(c, amount, charged) + Share(v, amount, charged)
        + Share(w, amount, charged);
            0 <= amount - s <= 3
  {
    hide Share;
    ShareBound(t, amount, charged);
    ShareBound(c, amount, charged);
    ShareBound(v, amount, charged);
    ShareBound(w, amount, charged);
    SumOfProducts(t, c, v, w, charged, amount);
    var a, b, d, e := Share(t, amount, charged), Share(c, amount, charged), Share(v, amount, charged),
        Share(w, amount, charged);
    SumOfProducts(a, b, d, e, a + b + d + e, charged);
    SumOfProducts(a + 1, b + 1, d + 1, e + 1, a + b + d + e + 4, charged);
    DivideOut(a + b + d + e, amount, charged);
    DivideOut(amount, a + b + d + e + 4, charged);
  }

  /** The accounts a capture credits: what each got, and what a refund takes back from it. */
  predicate Credited(a: Account) {
    a == TechnicianPayable || a == PlatformRevenue || a == VatPayable || a == TaxWithheld
  }

  /**
   A refund takes from an account the largest whole number of cents within its proportional share, or nothing
   when its policy spares the account; the platform never gains from one, and absorbs three cents at most when
   the refund is split in full.
   */
  lemma AllocationFair(b: Breakdown, amount: nat, policy: Policy, a: Account)
    requires Credited(a)
    ensures var r := Allocate(b, amount, policy);
            var taken, part := -RefundLines(amount, r).At(a), CaptureLines(b).At(a);
            && RefundLines(amount, r).Total() == 0 && RefundLines(amount, r).customer == amount
            && 0 <= taken && WithinShare(taken, part, amount, b.Charge())
            && (if (if a == TechnicianPayable then policy.reverseTransfer else policy.refundFee)
                then !WithinShare(taken + 1, part, amount, b.Charge()) else taken == 0)
            && 0 <= r.platform && (policy.reverseTransfer && policy.refundFee ==> r.platform <= 3)
  {
    hide Share, WithinShare;
    ShareBound(CaptureLines(b).At(a), amount, b.Charge());
    FourSharesFit(b.technician, b.commission, b.commissionTax, b.Withheld(), b.Charge(), amount);
  }

  lemma AddShares(x: int, y: int, part: int, first: int, second: int, charged: int)
    requires WithinShare(x, part, first, charged) && WithinShare(y, part, second, charged)
    ensures WithinShare(x + y, part, first + second, charged)
  {
    assert (x + y) * charged == x * charged + y * charged;
    assert part * (first + second) == part * first + part * second;
  }

  /** Over any number of refunds: what was taken back from an account is within its share of what was refunded. */
  lemma {:induction false} RefundsFair(refunds: seq<Refund>, b: Breakdown, refunded: nat, a: Account)
    requires Credited(a)
    requires forall i :: 0 <= i < |refunds| ==> RefundAgrees(b, refunded, refunds[i])
    ensures Total(refunds, Posted(a)) <= 0 && Total(refunds, Posted(Account.Refunds)) <= 0
    ensures WithinShare(-Total(refunds, Posted(a)), CaptureLines(b).At(a), Total(refunds, DoneCents), b.Charge())
    ensures Total(refunds, Posted(Customer)) == Total(refunds, DoneCents)
    decreases |refunds|
  {
    hide Allocate, Share;
    if refunds == [] {
    } else {
      var rest, r := refunds[..|refunds| - 1], refunds[|refunds| - 1];
      RefundsFair(rest, b, refunded, a);
      assert RefundAgrees(b, refunded, r);
      if r.status == Succeeded {
        AllocationFair(b, r.amount, PolicyOf(r.reason).value, a);
        AddShares(-Total(rest, Posted(a)), -Of(r, Posted(a)), CaptureLines(b).At(a), Total(rest, DoneCents),
            r.amount, b.Charge());
      }
    }
  }

  lemma WithinWhole(cut: int, part: nat, amount: int, charged: nat)
    requires WithinShare(cut, part, amount, charged) && 0 <= amount <= charged && charged > 0
    ensures cut <= part
  {
    MulMono(amount, charged, part);
    DivideOut(cut, part, charged);
  }

  // ---------------------------------------------------------------------------
  // Conservation over every run
  // ---------------------------------------------------------------------------

  /** A new payment after any calls and reports. */
  function Reached(quote: Breakdown, events: seq<Event>): Payment {
    Run(NewPayment(quote), events)
  }

  lemma ReachedConsistent(quote: Breakdown, events: seq<Event>)
    ensures Consistent(Reached(quote, events))
  {
    NewPaymentConsistent(quote);
    RunKeeps(NewPayment(quote), events);
    hide Consistent;
  }

  /** Money is neither made nor lost, and nobody is charged more than was credited. */
  ghost predicate Conserved(p: Payment) {
    && (forall g :: GroupTotal(p.ledger, g) == 0)
    && Balance(p.ledger, Customer) == p.refunded - p.captured + LostCents(p.ledger) <= 0
    && (forall a :: Credited(a) ==> 0 <= Balance(p.ledger, a))
    && Balance(p.ledger, Account.Refunds) <= 0
    && p.captured == (if Captures(p.ledger) == 0 then 0 else Effective(p).Charge())
    && Captures(p.ledger) <= 1
  }

  /** Each balance is what the capture credited, less the refunds' part, less the chargeback's. */
  lemma BalanceExplained(p: Payment, a: Account)
    requires Consistent(p)
    ensures Balance(p.ledger, a)
            == (if p.captured > 0 then CaptureLines(Effective(p)).At(a) else 0) + Total(p.refunds, Posted(a))
               + ChargebackLines(LostCents(p.ledger), RecoveredCents(p.ledger)).At(a)
  {
    hide RefundsAgree, ChargebackAgrees, AmountsAgree, Balanced;
    BalanceByKind(p.ledger, a);
  }

  /** A share of part of the charge is never more than the amount shared. */
  lemma WithinCut(cut: int, part: nat, amount: nat, charged: nat)
    requires WithinShare(cut, part, amount, charged) && part <= charged && charged > 0
    ensures cut <= amount
  {
    MulMono(part, charged, amount);
    DivideOut(cut, amount, charged);
  }

  /** Refunds and a chargeback together take from an account no more than the capture credited it. */
  lemma CreditLasts(b: Breakdown, refunds: seq<Refund>, book: seq<Entry>, refunded: nat, a: Account)
    requires Credited(a) && RefundsAgree(refunds, b, b.Charge(), refunded)
    requires ChargebackAgrees(book, b, b.Charge() - refunded, true)
    ensures 0 <= CaptureLines(b).At(a) + Total(refunds, Posted(a))
        + ChargebackLines(LostCents(book), RecoveredCents(book)).At(a)
  {
    hide WithinShare, RefundAgrees, AtMostOneOpen;
    var part, taken := CaptureLines(b).At(a), -Total(refunds, Posted(a));
    RefundsFair(refunds, b, refunded, a);
    if a == TechnicianPayable {
      AddShares(taken, RecoveredCents(book), part, refunded, LostCents(book), b.Charge());
      WithinWhole(taken + RecoveredCents(book), part, refunded + LostCents(book), b.Charge());
    } else {
      TotalsNonNegative(refunds);
      WithinWhole(taken, part, refunded, b.Charge());
    }
  }

  lemma ConsistentConserves(p: Payment)
    requires Consistent(p)
    ensures Conserved(p)
  {
    hide WithinShare, RefundAgrees, AtMostOneOpen;
    var b := Effective(p);
    RefundsFair(p.refunds, b, p.refunded, TechnicianPayable);
    BalanceExplained(p, Customer);
    BalanceExplained(p, Account.Refunds);
    WithinCut(RecoveredCents(p.ledger), b.technician, LostCents(p.ledger), b.Charge());
    forall a | Credited(a) ensures 0 <= Balance(p.ledger, a) {
      BalanceExplained(p, a);
      if p.captured > 0 { CreditLasts(b, p.refunds, p.ledger, p.refunded, a); }
    }
  }

  /** After any calls and reports, in any order, the book of the payment is whole. */
  lemma RunConserves(quote: Breakdown, events: seq<Event>)
    ensures Conserved(Reached(quote, events))
  {
    ReachedConsistent(quote, events);
    hide Reached, Consistent, Conserved;
    ConsistentConserves(Reached(quote, events));
  }

  // ---------------------------------------------------------------------------
  // Status, signatures and shares over every run
  // ---------------------------------------------------------------------------

  /** In every reachable state the status alone tells how much was charged and given back. */
  lemma RunStatusTellsAmounts(quote: Breakdown, events: seq<Event>)
    ensures var p := Reached(quote, events);
            && (p.status == Paid <==> 0 == p.refunded < p.captured && p.status !in {Disputed, ChargedBack})
            && (p.status == PartiallyRefunded <==> 0 < p.refunded < p.captured && p.status !in {Disputed, ChargedBack})
            && (p.status == PaymentStatus.Refunded <==>
                0 < p.refunded == p.captured && p.status !in {Disputed, ChargedBack})
            && (p.captured == 0 ==> p.refunded == 0 && p.refunds == [] && Balance(p.ledger, Customer) == 0)
            && (forall i, j :: 0 <= i < j < |p.refunds| ==> !(p.refunds[i].Open() && p.refunds[j].Open()))
            && 0 <= RefundableCents(p)
  {
    ReachedConsistent(quote, events);
    hide Reached, RefundAgrees, Total, WithinShare, Balanced;
    var p := Reached(quote, events);
    OpenCentsIsTotal(p.refunds);
    ConsistentConserves(p);
  }

  /**
   However a refund is split, and whoever asked for each part, what the application gives back without a
   second, high signature stays within the threshold; and nobody ever signs a refund of their own.
   */
  lemma RunNeedsSecondSignature(quote: Breakdown, events: seq<Event>)
    ensures Total(Reached(quote, events).refunds, UnsignedCents) <= HIGH_REFUND_CENTS
    ensures forall r :: r in Reached(quote, events).refunds && r.approvedBy.Some? ==>
                          r.requestedBy != Some(r.approvedBy.value.id)
  {
    ReachedConsistent(quote, events);
    hide Reached, BookAgrees, ChargebackAgrees, AmountsAgree;
  }

  /** All refunds together take from the technician at most the technician's share of what was refunded. */
  lemma RunRecoversProportionally(quote: Breakdown, events: seq<Event>)
    ensures var p := Reached(quote, events);
            WithinShare(-Total(p.refunds, Posted(TechnicianPayable)), Effective(p).technician, p.refunded, p.captured)
  {
    ReachedConsistent(quote, events);
    hide Reached, BookAgrees, ChargebackAgrees, RefundAgrees, AtMostOneOpen;
    var p := Reached(quote, events);
    RefundsFair(p.refunds, Effective(p), p.refunded, TechnicianPayable);
  }

  function DoneCount(refunds: seq<Refund>): nat {
    if refunds == [] then 0
    else DoneCount(refunds[..|refunds| - 1]) + if refunds[|refunds| - 1].status == Succeeded then 1 else 0
  }

  predicate Reversing(r: Refund) {
    r.status == Succeeded ==> PolicyOf(r.reason).Some? && PolicyOf(r.reason).value.reverseTransfer
  }

  lemma AddLeft(part: nat, done: int, amount: int, taken: int, more: int, n: int, charged: int)
    requires part * done <= (taken + n) * charged && part * amount < (more + 1) * charged
    ensures part * (done + amount) < (taken + more + n + 1) * charged
  {
    assert (taken + more + n + 1) * charged == (taken + n) * charged + (more + 1) * charged;
    assert part * (done + amount) == part * done + part * amount;
  }

  /** Each refund that reverses the transfer falls short of the exact share by less than a cent. */
  lemma {:induction false} ReversalsFallShort(refunds: seq<Refund>, b: Breakdown, refunded: nat)
    requires forall i :: 0 <= i < |refunds| ==> RefundAgrees(b, refunded, refunds[i]) && Reversing(refunds[i])
    ensures var done, taken := Total(refunds, DoneCents), -Total(refunds, Posted(TechnicianPayable));
            var n := DoneCount(refunds);
            if n == 0 then done == 0 else b.technician * done < (taken + n) * b.Charge()
    decreases |refunds|
  {
    hide Share;
    if refunds == [] {
    } else {
      var rest, r := refunds[..|refunds| - 1], refunds[|refunds| - 1];
      ReversalsFallShort(rest, b, refunded);
      assert RefundAgrees(b, refunded, r) && Reversing(r);
      if r.status == Succeeded {
        NoneDoneNothingTaken(rest);
        ShareBound(b.technician, r.amount, b.Charge());
        AddLeft(b.technician, Total(rest, DoneCents), r.amount, -Total(rest, Posted(TechnicianPayable)),
                Share(b.technician, r.amount, b.Charge()), DoneCount(rest), b.Charge());
      }
    }
  }

  lemma {:induction false} NoneDoneNothingTaken(refunds: seq<Refund>)
    ensures DoneCount(refunds) == 0 ==> Total(refunds, Posted(TechnicianPayable)) == 0
  {
    if refunds == [] {
    } else {
      NoneDoneNothingTaken(refunds[..|refunds| - 1]);
    }
  }

  /** `n` reversing refunds that return the whole charge leave the technician `n - 1` cents at most. */
  lemma ReversalsLeaveAtMost(p: Payment)
    requires Consistent(p) && p.status == PaymentStatus.Refunded
    requires forall i :: 0 <= i < |p.refunds| ==> Reversing(p.refunds[i])
    ensures 0 <= Balance(p.ledger, TechnicianPayable) <= DoneCount(p.refunds) - 1
  {
    hide RefundAgrees, Balanced, WithinShare;
    ConsistentConserves(p);
    BalanceExplained(p, TechnicianPayable);
    ReversalsFallShort(p.refunds, Effective(p), p.refunded);
    DivideOut(Effective(p).technician, DoneCount(p.refunds) - Total(p.refunds, Posted(TechnicianPayable)), p.captured);
  }

  // ---------------------------------------------------------------------------
  // What never changes
  // ---------------------------------------------------------------------------

  predicate Terminal(s: PaymentStatus) {
    s == Failed || s == Cancelled || s == PaymentStatus.Refunded || s == ChargedBack
  }

  /**
   The book is only appended to, a capture is only its first group, and a payment in a final state keeps its
   state, its amounts and its book.
   */
  ghost predicate Continues(p: Payment, q: Payment) {
    && p.ledger <= q.ledger
    && (p.ledger != [] ==> forall e :: e in q.ledger[|p.ledger|..] ==> e.kind != CaptureEntry)
    && (Terminal(p.status) ==>
          q.status == p.status && q.ledger == p.ledger && q.captured == p.captured && q.refunded == p.refunded)
  }

  ghost predicate ContinuesTo(p: Payment, r: Result<Outcome>) {
    r.Ok? ==> Continues(p, r.value.payment)
  }

  /** Nothing is in the book of a payment that can still be charged. */
  predicate Fresh(p: Payment) {
    Cancellable(p.status) ==> p.ledger == []
  }

  lemma ConsistentFresh(p: Payment)
    requires Consistent(p)
    ensures Fresh(p)
  {
  }

  lemma ReportContinues(p: Payment, report: Report)
    requires Fresh(p)
    ensures ContinuesTo(p, ApplyReport(p, report))
  {
    hide MarkCaptured;
  }

  lemma CaptureContinues(p: Payment, e: Event)
    requires Fresh(p) && (e.FullCapture? || e.PartCapture? || e.VisitFee? || e.Cancellation?)
    ensures ContinuesTo(p, Apply(p, e))
  {
    hide ApplyReport, Compute;
    match e {
      case FullCapture(answer) => if answer.Some? { ReportContinues(p, answer.value); }
      case PartCapture(price, terms, answer) => PartCaptureContinues(p, price, terms, answer);
      case VisitFee(fee, terms, answer, voided) => PartCaptureContinues(p, fee, Some(terms), answer);
      case Cancellation(_) =>
    }
  }

  lemma PartCaptureContinues(p: Payment, price: int, terms: Option<RuleTerms>, answer: Option<Report>)
    requires Fresh(p)
    ensures ContinuesTo(p, CapturePart(p, price, terms, answer))
  {
    hide ApplyReport, Compute;
    if answer.Some? {
      ReportContinues(p, answer.value);
      var b := Compute(price, TermsOr(terms, p), p.quote.taxes);
      if b.Ok? { ReportContinues(p.(partial := Some(b.value)), answer.value); }
    }
  }

  /** A refund that is approved or in process belongs to a payment that is neither dead nor fully refunded. */
  lemma OpenRefundNotFinal(p: Payment, i: nat)
    requires Consistent(p) && i < |p.refunds| && p.refunds[i].Open()
    ensures !Terminal(p.status) || p.status == ChargedBack
  {
    hide BookAgrees, ChargebackAgrees, Allocate;
    assert RefundAgrees(Effective(p), p.refunded, p.refunds[i]);
    OneOpen(p.refunds, i);
  }

  lemma SucceedContinues(p: Payment, i: nat)
    requires i < |p.refunds| && (!Terminal(p.status) || p.status == ChargedBack)
    ensures ContinuesTo(p, Succeed(p, i))
  {
    hide Post, Allocate;
    if Succeed(p, i).Ok? {
      var r := p.refunds[i];
      var shares := Allocate(Effective(p), r.amount, PolicyOf(r.reason).value);
      PostAppends(p.ledger, RefundEntry, RefundLines(r.amount, shares));
    }
  }

  lemma RefundReportContinues(p: Payment, i: nat, report: RefundReport)
    requires Consistent(p) && i < |p.refunds|
    ensures ContinuesTo(p, ApplyRefundReportTo(p, i, report))
  {
    hide Succeed, Consistent;
    var r := p.refunds[i];
    if r.Open() {
      OpenRefundNotFinal(p, i);
      SucceedContinues(p, i);
      SucceedContinues(p.(refunds := p.refunds[i := r.(providerId := Some(report.id))]), i);
    }
  }

  lemma RecordOutsideContinues(p: Payment, report: RefundReport)
    ensures ContinuesTo(p, RecordOutside(p, report))
  {
    hide Succeed;
    if Refundable(p.status) {
      var left := p.captured - p.refunded;
      var amount := if report.amount < left then report.amount else left;
      if amount > 0 {
        var r := Refund(amount, OutsideApp, FromOutside, None, None, Approved, Some(report.id), NOT_ALLOCATED);
        SucceedContinues(p.(refunds := p.refunds + [r]), |p.refunds|);
      }
    }
  }

  lemma ExecuteContinues(p: Payment, i: nat, answer: RefundAnswer)
    requires Consistent(p) && i < |p.refunds|
    ensures ContinuesTo(p, Execute(p, i, answer))
  {
    hide ApplyRefundReportTo, Consistent;
    if answer.Answered? { RefundReportContinues(p, i, answer.report); }
  }

  lemma CreateContinues(p: Payment, actor: Actor, amount: Option<int>, reason: Reason, source: Source,
      answer: RefundAnswer)
    requires Consistent(p)
    ensures ContinuesTo(p, CreateByFinance(p, actor, amount, reason, source, answer))
  {
    hide Execute, Consistent;
    var created := Requests(p, amount, reason, source, Some(actor.id));
    if actor.mayRefund && created.Ok? && !NeedsHighApproval(p, created.value.refunds[|p.refunds|].amount) {
      RequestsKeeps(p, amount, reason, source, Some(actor.id));
      ApprovedKeeps(created.value, |p.refunds|);
      ExecuteContinues(MoveRefund(created.value, |p.refunds|, Approved).value, |p.refunds|, answer);
    }
  }

  lemma ApprovedKeeps(p: Payment, i: nat)
    requires Consistent(p) && i < |p.refunds| && p.refunds[i].status == Requested
    requires !NeedsHighApproval(p, p.refunds[i].amount)
    ensures MoveRefund(p, i, Approved).Ok? && Consistent(MoveRefund(p, i, Approved).value)
  {
    hide Consistent;
    MoveRefundKeeps(p, i, Approved);
  }

  lemma ApproveContinues(p: Payment, i: nat, actor: Actor, answer: RefundAnswer)
    requires Consistent(p)
    ensures ContinuesTo(p, Approve(p, i, actor, answer))
  {
    hide Execute, BookAgrees, ChargebackAgrees, Allocate;
    if Approve(p, i, actor, answer).Ok? {
      var r := p.refunds[i].(approvedBy := Some(actor));
      RefundRewritten(p, i, r);
      var signed := p.(refunds := p.refunds[i := r]);
      MoveRefundKeeps(signed, i, Approved);
      ExecuteContinues(MoveRefund(signed, i, Approved).value, i, answer);
    }
  }

  lemma ChargeBackContinues(p: Payment, dispute: Option<nat>, reversed: bool)
    requires dispute.Some? ==> dispute.value < |p.disputes|
    ensures ContinuesTo(p, ChargeBack(p, dispute, reversed))
  {
    hide Post, Share, WithinShare;
    var open := p.captured - p.refunded;
    var lost :=
      if dispute.Some? && p.disputes[dispute.value].amount < open then p.disputes[dispute.value].amount else open;
    if lost > 0 {
      var share := Share(Effective(p).technician, lost, Effective(p).Charge());
      var lines := ChargebackLines(lost, if share > 0 && reversed then share else 0);
      if Post(p.ledger, ChargebackEntry, lines).Ok? { PostAppends(p.ledger, ChargebackEntry, lines); }
    }
  }

  lemma DisputeWonContinues(p: Payment)
    ensures ContinuesTo(p, DisputeWon(p))
  {
  }

  lemma SyncContinues(p: Payment, report: DisputeReport, reversed: bool)
    ensures ContinuesTo(p, SyncDispute(p, report, reversed))
  {
    hide ChargeBack, DisputeWon;
    var k, stored := FindDispute(p.disputes, report.id), DisputeStored(p, report);
    if stored.Ok? && stored.value.status == Disputed {
      var q := stored.value.(disputes := stored.value.disputes[k := stored.value.disputes[k].(closed := true)]);
      DisputeWonContinues(q);
      ChargeBackContinues(q, Some(k), reversed);
    }
  }

  lemma DisputeContinues(p: Payment, e: Event)
    requires e.DisputeReported? || e.DisputeEnded?
    ensures ContinuesTo(p, Apply(p, e))
  {
    hide ChargeBack, DisputeWon, SyncDispute, Continues;
    match e {
      case DisputeReported(report, reversed) => SyncContinues(p, report, reversed);
      case DisputeEnded(_, reversed) => DisputeWonContinues(p); ChargeBackContinues(p, None, reversed);
    }
  }

  lemma RefundStepContinues(p: Payment, e: Event)
    requires Consistent(p)
    requires e.ClientRequest? || e.FinanceRefund? || e.Approval? || e.Rejection? || e.RefundReported? || e.Retry?
    ensures ContinuesTo(p, Apply(p, e))
  {
    hide Consistent, Continues, CreateByFinance, Approve, Execute, ApplyRefundReportTo, RecordOutside, Find;
    match e {
      case FinanceRefund(actor, cents, reason, source, result) =>
        CreateContinues(p, actor, cents, reason, source, result);
      case Approval(i, actor, result) => ApproveContinues(p, i, actor, result);
      case RefundReported(report) =>
        var found := Find(p.refunds, report);
        if found.Some? { RefundReportContinues(p, found.value, report); } else { RecordOutsideContinues(p, report); }
      case Retry(i, result) => if i < |p.refunds| { ExecuteContinues(p, i, result); }
      case ClientRequest(_, _, _) | Rejection(_, _) => SameBook(p, Step(p, e));
    }
  }

  lemma StepContinues(p: Payment, e: Event)
    requires Consistent(p)
    ensures Continues(p, Step(p, e))
  {
    ConsistentFresh(p);
    SameBook(p, p);
    hide Consistent, Continues, Apply;
    match e {
      case Reported(report) => ReportedApplied(p, report); ReportContinues(p, report);
      case FullCapture(_) | PartCapture(_, _, _) | VisitFee(_, _, _, _) | Cancellation(_) => CaptureContinues(p, e);
      case ClientRequest(_, _, _) | FinanceRefund(_, _, _, _, _) | Approval(_, _, _) | Rejection(_, _)
        | RefundReported(_) | Retry(_, _) => RefundStepContinues(p, e);
      case DisputeReported(_, _) | DisputeEnded(_, _) => DisputeContinues(p, e);
      case VoidProcessed => VoidsContinue(p);
    }
  }

  lemma ReportedApplied(p: Payment, report: Report)
    ensures Apply(p, Reported(report)) == ApplyReport(p, report)
  {
    hide ApplyReport;
  }

  lemma VoidsContinue(p: Payment)
    ensures Continues(p, Step(p, VoidProcessed))
  {
  }

  lemma SameBook(p: Payment, q: Payment)
    requires q.ledger == p.ledger && q.status == p.status && q.captured == p.captured && q.refunded == p.refunded
    ensures Continues(p, q)
  {
  }

  /** Over any run the book is append-only, and a final state is final: a dead payment never revives. */
  lemma {:induction false} RunContinues(p: Payment, events: seq<Event>)
    requires Consistent(p)
    ensures Continues(p, Run(p, events))
    decreases |events|
  {
    hide Consistent, Step;
    if events == [] {
    } else {
      StepContinues(p, events[0]);
      StepKeeps(p, events[0]);
      RunContinues(Step(p, events[0]), events[1..]);
    }
  }

  // ---------------------------------------------------------------------------
  // Late, duplicated and out-of-order reports
  // ---------------------------------------------------------------------------

  /** The states on the way to a charge, in order. */
  predicate OnSuccessPath(s: PaymentStatus) {
    s in {Pending, RequiresAction, Processing, Authorized, Paid}
  }

  function Rank(s: PaymentStatus): nat
    requires OnSuccessPath(s)
  {
    match s
    case Pending => 0
    case RequiresAction => 1
    case Processing => 2
    case Authorized => 3
    case Paid => 4
  }

  /** All the reports speak of one reservation, and those of its charge of one amount; earlier ones carry any. */
  predicate OneStory(reports: seq<Report>, id: Option<nat>, received: nat) {
    forall r :: r in reports ==>
                  OnSuccessPath(r.status) && r.providerId == id && (r.status == Paid ==> r.received == received)
  }

  function Reports(p: Payment, reports: seq<Report>): Payment
    decreases |reports|
  {
    if reports == [] then p else Reports(Step(p, Reported(reports[0])), reports[1..])
  }

  function Furthest(s: PaymentStatus, reports: seq<Report>): (t: PaymentStatus)
    requires OnSuccessPath(s) && forall r :: r in reports ==> OnSuccessPath(r.status)
    ensures OnSuccessPath(t) && Rank(s) <= Rank(t)
    ensures t == s || exists r :: r in reports && r.status == t
    ensures forall r :: r in reports ==> Rank(r.status) <= Rank(t)
    decreases |reports|
  {
    if reports == [] then s
    else
      var next := if Rank(s) < Rank(reports[0].status) then reports[0].status else s;
      var t := Furthest(next, reports[1..]);
      assert t == s || exists r :: r in reports && r.status == t by {
        if t == next && t != s { assert reports[0] in reports; }
        if r :| r in reports[1..] && r.status == t { assert r in reports; }
      }
      t
  }

  function Known(p: Payment, id: Option<nat>): Payment {
    if p.providerId.None? then p.(providerId := id) else p
  }

  /** The payment once a state has been reported, whatever was reported on the way. */
  function Arrived(p: Payment, to: PaymentStatus, received: nat): Payment {
    if to == Paid && p.status != Paid then
      var captured := MarkCaptured(p.(status := Authorized), received);
      if captured.Ok? then captured.value else p
    else p.(status := to)
  }

  lemma KnownIsLabelled(p: Payment, id: Option<nat>)
    ensures Known(p, id).status == p.status
  {
  }

  lemma KnownKeeps(p: Payment, id: Option<nat>)
    requires Consistent(p)
    ensures Consistent(Known(p, id))
  {
    hide RefundsAgree, BookAgrees, ChargebackAgrees, RowAdmitted;
  }

  lemma ReportArrives(p: Payment, report: Report)
    requires Consistent(p) && OnSuccessPath(p.status) && OnSuccessPath(report.status)
    ensures var t := Furthest(p.status, [report]);
            Step(p, Reported(report)) == Arrived(Known(p, report.providerId), t, report.received)
  {
    hide Consistent, MarkCaptured;
    assert report in [report];
    var q := Known(p, report.providerId);
    KnownKeeps(p, report.providerId);
    if report.status == Paid && p.status != Paid { CaptureReportKeeps(q, report.received); }
  }

  lemma ArrivedOnce(p: Payment, id: Option<nat>, middle: PaymentStatus, to: PaymentStatus, received: nat)
    requires Consistent(p) && OnSuccessPath(p.status) && OnSuccessPath(middle) && OnSuccessPath(to)
    requires Rank(p.status) <= Rank(middle) <= Rank(to)
    ensures var q := Arrived(Known(p, id), middle, received);
            && Consistent(q) && q.status == middle
            && Arrived(Known(q, id), to, received) == Arrived(Known(p, id), to, received)
  {
    hide RefundsAgree, BookAgrees, ChargebackAgrees, RowAdmitted;
    var q := Known(p, id);
    KnownKeeps(p, id);
    if Cancellable(p.status) {
      CaptureReportKeeps(q, received);
      if middle == Paid {
        MarkedPaid(q.(status := Authorized), received);
      } else {
        hide MarkCaptured;
        UnchargedMove(q, q.(status := middle));
      }
    }
  }

  lemma MarkedPaid(p: Payment, received: nat)
    requires MarkCaptured(p, received).Ok?
    ensures MarkCaptured(p, received).value.status == Paid
    ensures MarkCaptured(p, received).value.providerId == p.providerId
  {
    hide Settled, Post, Consistent;
  }

  /** The amount of a report is read only when it brings the charge. */
  lemma AmountReadAtCharge(p: Payment, to: PaymentStatus, reported: nat, received: nat)
    requires to == Paid && p.status != Paid ==> reported == received
    ensures Arrived(p, to, reported) == Arrived(p, to, received)
  {
    hide MarkCaptured;
  }

  /** Folding reports in any order arrives at the furthest state reported. */
  lemma {:induction false} ReportsArrive(p: Payment, reports: seq<Report>, id: Option<nat>, received: nat)
    requires Consistent(p) && OnSuccessPath(p.status) && reports != [] && OneStory(reports, id, received)
    ensures Reports(p, reports) == Arrived(Known(p, id), Furthest(p.status, reports), received)
    decreases |reports|
  {
    hide Consistent, Step, Arrived, Known;
    var first, rest := reports[0], reports[1..];
    assert first in reports;
    ReportArrives(p, first);
    var middle := Furthest(p.status, [first]);
    KnownIsLabelled(p, id);
    AmountReadAtCharge(Known(p, id), middle, first.received, received);
    ArrivedOnce(p, id, middle, Furthest(p.status, reports), received);
    if rest == [] {
      assert reports == [first];
    } else {
      ReportsArrive(Step(p, Reported(first)), rest, id, received);
    }
  }

  lemma CapturedWhenPaid(p: Payment)
    requires Consistent(p) && OnSuccessPath(p.status)
    ensures Captures(p.ledger) == if p.status == Paid then 1 else 0
  {
    hide RefundsAgree, RowAdmitted;
  }

  /**
   Reports on the way to one charge may be repeated and reordered at will: the payment ends the same, in
   the furthest state reported, with a single capture posted when the charge was reported.
   */
  lemma OrderDoesNotMatter(p: Payment, reports: seq<Report>, shuffled: seq<Report>, id: Option<nat>, received: nat)
    requires Consistent(p) && Cancellable(p.status) && OneStory(reports, id, received)
    requires forall r :: r in reports <==> r in shuffled
    ensures Reports(p, reports) == Reports(p, shuffled)
    ensures Reports(p, reports).status == Furthest(p.status, reports)
    ensures Captures(Reports(p, reports).ledger) == if exists r :: r in reports && r.status == Paid then 1 else 0
  {
    hide Step, Arrived, Consistent, Captures;
    assert shuffled != [] ==> shuffled[0] in shuffled;
    assert reports != [] ==> reports[0] in reports;
    if reports != [] {
      ReportsArrive(p, reports, id, received);
      ReportsArrive(p, shuffled, id, received);
      SameFurthest(p.status, reports, shuffled);
      ArrivedOnce(p, id, Furthest(p.status, reports), Furthest(p.status, reports), received);
    }
    CapturedWhenPaid(Reports(p, reports));
  }

  lemma SameFurthest(s: PaymentStatus, reports: seq<Report>, shuffled: seq<Report>)
    requires OnSuccessPath(s) && forall r :: r in reports ==> OnSuccessPath(r.status)
    requires forall r :: r in reports <==> r in shuffled
    ensures Furthest(s, reports) == Furthest(s, shuffled)
  {
    assert Rank(Furthest(s, reports)) == Rank(Furthest(s, shuffled));
  }

  // ---------------------------------------------------------------------------
  // Lost answers and failing calls
  // ---------------------------------------------------------------------------

  /**
   A partial capture whose answer is lost rolls its breakdown back; the later report of what was really
   captured brings the payment to exactly the state the answer would have brought it to.
   */
  lemma LostCaptureRecovered(p: Payment, price: int, report: Report)
    requires Consistent(p) && p.status == Authorized && p.providerId.Some? && p.partial.None?
    requires var b := Compute(price, p.quote.terms, p.quote.taxes);
             b.Ok? && b.value.Charge() < p.amount && report.status == Paid && report.received == b.value.Charge()
    ensures Step(p, PartCapture(price, None, None)) == p
    ensures CapturePart(p, price, None, Some(report)).Ok?
    ensures Step(p, Reported(report)) == Step(p, PartCapture(price, None, Some(report)))
    ensures Step(p, Reported(report)).partial == Some(Compute(price, p.quote.terms, p.quote.taxes).value)
  {
    SplitRebuiltFromCharge(price, p.quote.terms, p.quote.taxes);
    var b := Compute(price, p.quote.terms, p.quote.taxes).value;
    assert Settled(p, report.received) == Some(b);
    CaptureWithKeeps(p, Some(b));
    hide Compute, Post, Consistent;
  }

  /** A reservation in process is the only one that cannot be given up: the call fails exactly there. */
  lemma CancelFailsInProcess(p: Payment, voided: bool)
    ensures Cancel(p, voided).Err? <==> p.status == Processing
    ensures Cancel(p, voided).Ok? && Cancellable(p.status) ==>
              Cancel(p, voided).value == p.(status := Cancelled, voids := if p.providerId.Some? && !voided
                  then p.voids + 1 else p.voids)
    ensures !Cancellable(p.status) ==> Cancel(p, voided) == Ok(p)
  {
  }

  /**
   A lost dispute takes what is left of the charge, up to the disputed amount; from the technician it takes the
   largest whole number of cents within the share if the provider can reverse it, and nothing otherwise; and
   the platform absorbs the rest.
   */
  lemma LostDisputeTakes(p: Payment, dispute: Option<nat>, reversed: bool)
    requires Consistent(p) && p.status == Disputed && (dispute.Some? ==> dispute.value < |p.disputes|)
    ensures ChargeBack(p, dispute, reversed).Ok?
    ensures var q := ChargeBack(p, dispute, reversed).value.payment;
            var left, lost, recovered := p.captured - p.refunded, LostCents(q.ledger), RecoveredCents(q.ledger);
            && q.status == ChargedBack && q.captured == p.captured && q.refunded == p.refunded
            && lost == (if dispute.Some? && p.disputes[dispute.value].amount < left
                then p.disputes[dispute.value].amount else left)
            && (if reversed then WithinShare(recovered, Effective(p).technician, lost, Effective(p).Charge())
                                 && !WithinShare(recovered + 1, Effective(p).technician, lost, Effective(p).Charge())
                else recovered == 0)
            && Balance(q.ledger, Account.Refunds) == Balance(p.ledger, Account.Refunds) - (lost - recovered)
  {
    hide RefundsAgree, Balanced, EntriesOf, Share, WithinShare, Captures, Sum, Balance, Total;
    var left := p.captured - p.refunded;
    var lost :=
      if dispute.Some? && p.disputes[dispute.value].amount < left then p.disputes[dispute.value].amount else left;
    ShareBound(Effective(p).technician, lost, Effective(p).Charge());
    NothingShared(Effective(p).technician, Effective(p).Charge());
    if lost > 0 {
      var share := Share(Effective(p).technician, lost, Effective(p).Charge());
      var lines, q := ChargebackLines(lost, if share > 0 && reversed then share else 0),
          ChargeBack(p, dispute, reversed).value.payment;
      forall a, k ensures Sum(q.ledger, k, a) == Sum(p.ledger, k, a) + if k == ChargebackEntry then lines.At(a) else 0 {
        PostMoves(p.ledger, ChargebackEntry, lines, k, a);
      }
      BalanceByKind(p.ledger, Account.Refunds);
      BalanceByKind(q.ledger, Account.Refunds);
    }
  }

  lemma NothingShared(part: nat, charged: nat)
    requires charged > 0
    ensures WithinShare(0, part, 0, charged) && !WithinShare(1, part, 0, charged)
  {
  }
}
