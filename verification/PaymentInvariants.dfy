/** What holds of a payment in every reachable state, and that every service call keeps it. */
module PaymentInvariants {
  import opened Results
  import opened Commission
  import opened Ledger
  import opened Payments

  // ---------------------------------------------------------------------------
  // Totals over the refunds of a payment
  // ---------------------------------------------------------------------------

  datatype Measure = DoneCents | InFlightCents | UnsignedCents | Posted(account: Account)

  /** Signed by somebody with the high permission who is not the one who asked. */
  predicate SignedHigh(r: Refund) {
    && r.approvedBy.Some? && r.approvedBy.value.mayApproveHigh
    && r.requestedBy != Some(r.approvedBy.value.id)
  }

  /** A refund that somebody asked for in the application, without the second, high signature. */
  predicate Unsigned(r: Refund) {
    r.requestedBy.Some? && !SignedHigh(r)
  }

  function Of(r: Refund, m: Measure): int {
    match m
    case DoneCents => if r.status == Succeeded then r.amount else 0
    case InFlightCents => if r.Open() then r.amount else 0
    case UnsignedCents => if r.status == Succeeded && Unsigned(r) then r.amount else 0
    case Posted(a) => if r.status == Succeeded then RefundLines(r.amount, r.allocation).At(a) else 0
  }

  function Total(refunds: seq<Refund>, m: Measure): int {
    if refunds == [] then 0 else Total(refunds[..|refunds| - 1], m) + Of(refunds[|refunds| - 1], m)
  }

  lemma TotalAppend(refunds: seq<Refund>, r: Refund, m: Measure)
    ensures Total(refunds + [r], m) == Total(refunds, m) + Of(r, m)
  {
    assert (refunds + [r])[..|refunds|] == refunds;
  }

  lemma {:induction false} TotalUpdate(refunds: seq<Refund>, i: nat, r: Refund, m: Measure)
    requires i < |refunds|
    ensures Total(refunds[i := r], m) == Total(refunds, m) - Of(refunds[i], m) + Of(r, m)
  {
    var n := |refunds| - 1;
    if i == n {
      assert refunds[i := r][..n] == refunds[..n];
    } else {
      TotalUpdate(refunds[..n], i, r, m);
      assert refunds[i := r][..n] == refunds[..n][i := r];
    }
  }

  lemma {:induction false} OpenCentsIsTotal(refunds: seq<Refund>)
    ensures OpenCents(refunds) == Total(refunds, InFlightCents)
  {
    if refunds == [] {
    } else {
      OpenCentsIsTotal(refunds[..|refunds| - 1]);
    }
  }

  /** With no refund open, none is in flight. */
  lemma {:induction false} NoneOpen(refunds: seq<Refund>)
    requires !HasOpen(refunds)
    ensures Total(refunds, InFlightCents) == 0
  {
    if refunds == [] {
    } else {
      var last := |refunds| - 1;
      forall i | 0 <= i < last ensures !refunds[..last][i].Open() { assert !refunds[i].Open(); }
      NoneOpen(refunds[..last]);
      assert !refunds[last].Open();
    }
  }

  /** The only open refund is all that is in flight. */
  lemma OneOpen(refunds: seq<Refund>, i: nat)
    requires i < |refunds| && refunds[i].Open() && AtMostOneOpen(refunds)
    ensures Total(refunds, InFlightCents) == refunds[i].amount
  {
    var closed := refunds[i := refunds[i].(status := Rejected)];
    forall k | 0 <= k < |closed| ensures !closed[k].Open() {}
    NoneOpen(closed);
    TotalUpdate(refunds, i, refunds[i].(status := Rejected), InFlightCents);
  }

  lemma {:induction false} TotalsNonNegative(refunds: seq<Refund>)
    ensures 0 <= Total(refunds, UnsignedCents) <= Total(refunds, DoneCents)
    ensures Total(refunds, InFlightCents) >= 0
  {
    if refunds == [] {
    } else {
      TotalsNonNegative(refunds[..|refunds| - 1]);
    }
  }

  // ---------------------------------------------------------------------------
  // The invariant
  // ---------------------------------------------------------------------------

  /** Status and amounts tell the same story. */
  ghost predicate AmountsAgree(p: Payment) {
    && p.amount == p.quote.Charge()
    && (p.partial.Some? ==> p.partial.value.Charge() < p.amount)
    && (match p.status
        case Paid => 0 == p.refunded < p.captured
        case PartiallyRefunded => 0 < p.refunded < p.captured
        case Refunded => 0 < p.refunded == p.captured
        case Disputed | ChargedBack => p.refunded <= p.captured && 0 < p.captured
        case Pending | RequiresAction | Processing | Authorized | Failed | Cancelled => p.captured == p.refunded == 0)
    && (p.captured > 0 ==> p.captured == Effective(p).Charge())
  }

  ghost predicate AtMostOneOpen(refunds: seq<Refund>) {
    forall i, j :: 0 <= i < j < |refunds| ==> !(refunds[i].Open() && refunds[j].Open())
  }

  ghost predicate RefundAgrees(b: Breakdown, refunded: nat, r: Refund) {
    && r.amount > 0 && PolicyOf(r.reason).Some?
    && (r.approvedBy.Some? ==> r.requestedBy != Some(r.approvedBy.value.id))
    && r.allocation
       == (if r.status == Succeeded then Allocate(b, r.amount, PolicyOf(r.reason).value) else NOT_ALLOCATED)
    && ((r.status == Approved || r.status == InProcess) && Unsigned(r) ==> refunded + r.amount <= HIGH_REFUND_CENTS)
  }

  /** Refunds add up to what the payment says, one at a time, and never above what was charged. */
  ghost predicate RefundsAgree(refunds: seq<Refund>, b: Breakdown, captured: nat, refunded: nat) {
    && (captured == 0 ==> refunds == [])
    && AtMostOneOpen(refunds)
    && refunded == Total(refunds, DoneCents)
    && refunded + Total(refunds, InFlightCents) <= captured
    && Total(refunds, UnsignedCents) <= HIGH_REFUND_CENTS
    && (forall i :: 0 <= i < |refunds| ==> RefundAgrees(b, refunded, refunds[i]))
  }

  /** What the book says was lost to a chargeback, and what of it came back from the technician. */
  function LostCents(book: seq<Entry>): int { Sum(book, ChargebackEntry, Customer) }

  function RecoveredCents(book: seq<Entry>): int { -Sum(book, ChargebackEntry, TechnicianPayable) }

  /** `cut` is no more than the proportional share of `part` in `amount` out of `charged`. */
  ghost predicate WithinShare(cut: int, part: int, amount: int, charged: int) {
    cut * charged <= part * amount
  }

  /** The book holds one capture of the effective breakdown, the succeeded refunds and at most one chargeback. */
  ghost predicate BookAgrees(book: seq<Entry>, refunds: seq<Refund>, b: Breakdown, charged: bool) {
    && Balanced(book)
    && (!charged ==> book == [])
    && Captures(book) == (if charged then 1 else 0)
    && (forall a :: Sum(book, CaptureEntry, a) == if charged then CaptureLines(b).At(a) else 0)
    && (forall a :: Sum(book, RefundEntry, a) == Total(refunds, Posted(a)))
    && (forall a :: Sum(book, ChargebackEntry, a) == ChargebackLines(LostCents(book), RecoveredCents(book)).At(a))
  }

  /** A chargeback takes no more than what is left, and from the technician no more than the proportional share. */
  ghost predicate ChargebackAgrees(book: seq<Entry>, b: Breakdown, left: int, chargedBack: bool) {
    && 0 <= LostCents(book) <= left
    && 0 <= RecoveredCents(book) && WithinShare(RecoveredCents(book), b.technician, LostCents(book), b.Charge())
    && (!chargedBack ==> LostCents(book) == 0 && RecoveredCents(book) == 0)
  }

  /** A void is queued at most once, and only for a payment that is dead. */
  ghost predicate VoidsAgree(p: Payment) {
    p.voids <= 1 && (p.voids > 0 ==> !Live(p.status))
  }

  ghost predicate Consistent(p: Payment) {
    && AmountsAgree(p) && VoidsAgree(p)
    && RefundsAgree(p.refunds, Effective(p), p.captured, p.refunded)
    && BookAgrees(p.ledger, p.refunds, Effective(p), p.captured > 0)
    && ChargebackAgrees(p.ledger, Effective(p), p.captured - p.refunded, p.status == ChargedBack)
  }

  lemma NewPaymentConsistent(quote: Breakdown)
    ensures Consistent(NewPayment(quote))
  {
  }

  // ---------------------------------------------------------------------------
  // Calls before and at the capture
  // ---------------------------------------------------------------------------

  predicate Uncharged(s: PaymentStatus) {
    s in {Pending, RequiresAction, Processing, Authorized, Failed, Cancelled}
  }

  /** Before the capture only the status, the provider's id, the partial breakdown and the queued void move. */
  lemma UnchargedMove(p: Payment, q: Payment)
    requires Consistent(p) && Uncharged(p.status) && Uncharged(q.status)
    requires q == p.(status := q.status, providerId := q.providerId, partial := q.partial, voids := q.voids)
    requires q.partial.Some? ==> q.partial.value.Charge() < p.amount
    requires VoidsAgree(q)
    ensures Consistent(q)
  {
  }

  lemma CaptureWithKeeps(p: Payment, partial: Option<Breakdown>)
    requires Consistent(p) && p.status == Authorized
    requires partial.Some? ==> partial.value.Charge() < p.amount
    ensures CaptureWith(p, partial).Ok? && Consistent(CaptureWith(p, partial).value)
  {
    hide Compute, Share, EntriesOf, RefundAgrees;
    var effective := Effective(p.(partial := partial));
    var lines := CaptureLines(effective);
    assert lines.customer < 0 && lines.Total() == 0;
    var q := CaptureWith(p, partial).value;
    PostKeepsBalanced(p.ledger, CaptureEntry, lines);
    PostCounts(p.ledger, CaptureEntry, lines);
    forall a, k ensures Sum(q.ledger, k, a) == Sum(p.ledger, k, a) + if k == CaptureEntry then lines.At(a) else 0 {
      PostMoves(p.ledger, CaptureEntry, lines, k, a);
    }
  }

  lemma CaptureReportKeeps(p: Payment, received: nat)
    requires Consistent(p) && Cancellable(p.status)
    ensures var authorized := p.(status := Authorized);
            MarkCaptured(authorized, received).Ok? && Consistent(MarkCaptured(authorized, received).value)
  {
    var authorized := p.(status := Authorized);
    UnchargedMove(p, authorized);
    CaptureWithKeeps(authorized, Settled(authorized, received));
  }

  /** A report other than a charge moves the status, the provider's id and the queued void, and nothing else. */
  lemma StatusReportShape(p: Payment, report: Report)
    requires report.status != Paid && ApplyReport(p, report).Ok?
    ensures var q := ApplyReport(p, report).value.payment;
            && q == p.(status := q.status, providerId := q.providerId, voids := q.voids)
            && (q.status != p.status ==> Cancellable(p.status) && Uncharged(q.status))
            && (q.voids != p.voids ==> p.voids == 0 && q.voids == 1 && !Live(p.status) && q.status == p.status)
  {
  }

  lemma StatusReportKeeps(p: Payment, report: Report)
    requires Consistent(p) && report.status != Paid
    ensures ApplyReport(p, report).Ok? ==> Consistent(ApplyReport(p, report).value.payment)
  {
    if ApplyReport(p, report).Ok? {
      StatusReportShape(p, report);
      var q := ApplyReport(p, report).value.payment;
      var labelled := p.(providerId := q.providerId, voids := q.voids);
      assert Consistent(labelled);
      if q.status != p.status { UnchargedMove(labelled, q); }
    }
  }

  lemma ApplyReportKeeps(p: Payment, report: Report)
    requires Consistent(p)
    ensures ApplyReport(p, report).Ok? ==> Consistent(ApplyReport(p, report).value.payment)
  {
    hide Settled, Post, RefundsAgree, BookAgrees, ChargebackAgrees;
    if report.status != Paid {
      StatusReportKeeps(p, report);
    } else {
      var q := if p.providerId.None? then p.(providerId := report.providerId) else p;
      assert Consistent(q);
      if Cancellable(p.status) { CaptureReportKeeps(q, report.received); }
    }
  }

  lemma CancelKeeps(p: Payment, voided: bool)
    requires Consistent(p)
    ensures Cancel(p, voided).Ok? ==> Consistent(Cancel(p, voided).value)
    ensures Cancel(p, voided).Ok? <==> p.status != Processing
  {
  }

  lemma CapturePartKeeps(p: Payment, price: int, terms: Option<RuleTerms>, answer: Option<Report>)
    requires Consistent(p)
    ensures CapturePart(p, price, terms, answer).Ok? ==> Consistent(CapturePart(p, price, terms, answer).value.payment)
  {
    hide Compute, ApplyReport;
    if CapturePart(p, price, terms, answer).Ok? {
      var b := Compute(price, TermsOr(terms, p), p.quote.taxes).value;
      if b.Charge() >= p.amount {
        ApplyReportKeeps(p, answer.value);
      } else {
        UnchargedMove(p, PartialStored(p, b).value);
        ApplyReportKeeps(PartialStored(p, b).value, answer.value);
      }
    }
  }

  lemma CaptureVisitFeeKeeps(p: Payment, fee: int, terms: RuleTerms, answer: Option<Report>, voided: bool)
    requires Consistent(p)
    ensures var r := CaptureVisitFee(p, fee, terms, answer, voided); r.Ok? ==> Consistent(r.value.payment)
  {
    hide Compute, CapturePart, Cancel;
    if CaptureVisitFee(p, fee, terms, answer, voided).Ok? {
      var b := Compute(fee, terms, p.quote.taxes);
      if b.Ok? && answer.Some? {
        CapturePartKeeps(p, fee, Some(terms), answer);
      } else if b.Err? || b.value.Charge() >= p.amount {
        CancelKeeps(p, voided);
      } else {
        UnchargedMove(p, PartialStored(p, b.value).value);
        CancelKeeps(PartialStored(p, b.value).value, voided);
      }
    }
  }

  // ---------------------------------------------------------------------------
  // Refunds
  // ---------------------------------------------------------------------------

  lemma RefundAdded(p: Payment, r: Refund)
    requires Consistent(p) && !HasOpen(p.refunds) && 0 < p.captured
    requires r.Open() && RefundAgrees(Effective(p), p.refunded, r) && p.refunded + r.amount <= p.captured
    ensures Consistent(p.(refunds := p.refunds + [r]))
  {
    hide Share, WithinShare, PolicyOf, RefundAgrees, RefundsAgree, ChargebackAgrees;
    var q := p.(refunds := p.refunds + [r]);
    AddedAgrees(p.refunds, r, Effective(p), p.captured, p.refunded);
    assert r.status != Succeeded;
    forall a ensures Total(q.refunds, Posted(a)) == Total(p.refunds, Posted(a)) {
      TotalAppend(p.refunds, r, Posted(a));
    }
  }

  lemma AddedAgrees(refunds: seq<Refund>, r: Refund, b: Breakdown, captured: nat, refunded: nat)
    requires RefundsAgree(refunds, b, captured, refunded) && !HasOpen(refunds) && 0 < captured
    requires r.Open() && RefundAgrees(b, refunded, r) && refunded + r.amount <= captured
    ensures RefundsAgree(refunds + [r], b, captured, refunded)
  {
    hide RefundAgrees;
    var after := refunds + [r];
    NoneOpen(refunds);
    forall m ensures Total(after, m) == Total(refunds, m) + Of(r, m) { TotalAppend(refunds, r, m); }
    forall i, j | 0 <= i < j < |after| ensures !(after[i].Open() && after[j].Open()) {
      assert !refunds[i].Open();
    }
  }

  lemma RequestsKeeps(p: Payment, amount: Option<int>, reason: Reason, source: Source, requestedBy: Option<nat>)
    requires Consistent(p)
    ensures var r := Requests(p, amount, reason, source, requestedBy); r.Ok? ==> Consistent(r.value)
  {
    if Requests(p, amount, reason, source, requestedBy).Ok? {
      OpenCentsIsTotal(p.refunds);
      NoneOpen(p.refunds);
      RefundAdded(p, Requests(p, amount, reason, source, requestedBy).value.refunds[|p.refunds|]);
    }
  }

  /** Rewriting a refund that has not succeeded, without making it succeed, changes nothing else. */
  lemma RefundRewritten(p: Payment, i: nat, r: Refund)
    requires Consistent(p) && i < |p.refunds|
    requires p.refunds[i].status != Succeeded && r.status != Succeeded
    requires r.amount == p.refunds[i].amount && (r.Open() ==> p.refunds[i].Open())
    requires RefundAgrees(Effective(p), p.refunded, r)
    ensures Consistent(p.(refunds := p.refunds[i := r]))
  {
    hide Share, WithinShare, PolicyOf;
    var q := p.(refunds := p.refunds[i := r]);
    forall m ensures Total(q.refunds, m) == Total(p.refunds, m) - Of(p.refunds[i], m) + Of(r, m) {
      TotalUpdate(p.refunds, i, r, m);
    }
  }

  /** A provider's id is only a label. */
  lemma RefundLabelled(p: Payment, i: nat, id: Option<nat>)
    requires Consistent(p) && i < |p.refunds|
    ensures Consistent(p.(refunds := p.refunds[i := p.refunds[i].(providerId := id)]))
  {
    hide Share, WithinShare, PolicyOf, Allocate, Balanced;
    var r := p.refunds[i].(providerId := id);
    var q := p.(refunds := p.refunds[i := r]);
    forall m ensures Total(q.refunds, m) == Total(p.refunds, m) {
      TotalUpdate(p.refunds, i, r, m);
    }
  }

  lemma MoveRefundKeeps(p: Payment, i: nat, to: RefundStatus)
    requires Consistent(p) && i < |p.refunds| && to != Succeeded
    requires to == Approved && Unsigned(p.refunds[i]) ==> p.refunded + p.refunds[i].amount <= HIGH_REFUND_CENTS
    ensures MoveRefund(p, i, to).Ok? ==> Consistent(MoveRefund(p, i, to).value)
  {
    if MoveRefund(p, i, to).Ok? && p.refunds[i].status != to {
      RefundRewritten(p, i, p.refunds[i].(status := to));
    }
  }

  /** The payment after the refund `i` is confirmed with the given shares. */
  lemma SucceedKeeps(p: Payment, i: nat)
    requires Consistent(p) && i < |p.refunds| && (p.refunds[i].status == Approved || p.refunds[i].status == InProcess)
    ensures Succeed(p, i).Ok? <==> Refundable(p.status) || p.status == Disputed
    ensures Succeed(p, i).Ok? ==> Consistent(Succeed(p, i).value.payment)
  {
    hide Share, EntriesOf, BookAgrees, ChargebackAgrees;
    var r := p.refunds[i];
    assert RefundAgrees(Effective(p), p.refunded, r);
    OneOpen(p.refunds, i);
    if Refundable(p.status) || p.status == Disputed {
      var allocation := Allocate(Effective(p), r.amount, PolicyOf(r.reason).value);
      var done := r.(allocation := allocation, status := Succeeded);
      var lines := RefundLines(r.amount, allocation);
      assert lines.customer > 0 && lines.Total() == 0;
      assert p.refunds[i := r.(allocation := allocation)][i := done] == p.refunds[i := done];
      ConfirmedKeeps(p, i, done, Succeed(p, i).value.payment);
    }
  }

  lemma ConfirmedRefunds(refunds: seq<Refund>, i: nat, done: Refund, b: Breakdown, captured: nat, refunded: nat)
    requires RefundsAgree(refunds, b, captured, refunded)
    requires i < |refunds| && (refunds[i].status == Approved || refunds[i].status == InProcess)
    requires done == refunds[i].(allocation := done.allocation, status := Succeeded)
    requires RefundAgrees(b, refunded, done)
    ensures refunded + done.amount <= captured
    ensures RefundsAgree(refunds[i := done], b, captured, refunded + done.amount)
  {
    hide Allocate;
    var after := refunds[i := done];
    OneOpen(refunds, i);
    TotalsNonNegative(refunds);
    assert RefundAgrees(b, refunded, refunds[i]);
    forall m ensures Total(after, m) == Total(refunds, m) - Of(refunds[i], m) + Of(done, m) {
      TotalUpdate(refunds, i, done, m);
    }
    forall k | 0 <= k < |after| ensures RefundAgrees(b, refunded + done.amount, after[k]) {
      if k != i {
        assert !refunds[k].Open();
        assert RefundAgrees(b, refunded, refunds[k]);
      }
    }
  }

  lemma ConfirmedBook(book: seq<Entry>, refunds: seq<Refund>, i: nat, done: Refund, b: Breakdown)
    requires BookAgrees(book, refunds, b, true)
    requires i < |refunds| && refunds[i].status != Succeeded && done.status == Succeeded
    requires Post(book, RefundEntry, RefundLines(done.amount, done.allocation)).Ok?
    ensures var after := Post(book, RefundEntry, RefundLines(done.amount, done.allocation)).value;
            && BookAgrees(after, refunds[i := done], b, true)
            && LostCents(after) == LostCents(book) && RecoveredCents(after) == RecoveredCents(book)
  {
    var lines := RefundLines(done.amount, done.allocation);
    var after := Post(book, RefundEntry, lines).value;
    PostKeepsBalanced(book, RefundEntry, lines);
    PostCounts(book, RefundEntry, lines);
    forall a, k ensures Sum(after, k, a) == Sum(book, k, a) + if k == RefundEntry then lines.At(a) else 0 {
      PostMoves(book, RefundEntry, lines, k, a);
    }
    forall a ensures Total(refunds[i := done], Posted(a)) == Total(refunds, Posted(a)) + lines.At(a) {
      TotalUpdate(refunds, i, done, Posted(a));
    }
  }

  lemma ConfirmedKeeps(p: Payment, i: nat, done: Refund, q: Payment)
    requires Consistent(p) && i < |p.refunds| && (p.refunds[i].status == Approved || p.refunds[i].status == InProcess)
    requires done == p.refunds[i].(allocation := done.allocation, status := Succeeded)
    requires RefundAgrees(Effective(p), p.refunded, done) && (Refundable(p.status) || p.status == Disputed)
    requires Post(p.ledger, RefundEntry, RefundLines(done.amount, done.allocation)).Ok?
    requires var total := p.refunded + done.amount;
             q == p.(refunds := p.refunds[i := done], refunded := total,
                     ledger := Post(p.ledger, RefundEntry, RefundLines(done.amount, done.allocation)).value,
                     status := if p.status == Disputed then Disputed
                               else if total == p.captured then PaymentStatus.Refunded else PartiallyRefunded)
    ensures Consistent(q)
  {
    hide Allocate, RefundsAgree, BookAgrees, WithinShare, Post;
    ConfirmedRefunds(p.refunds, i, done, Effective(p), p.captured, p.refunded);
    ConfirmedBook(p.ledger, p.refunds, i, done, Effective(p));
    assert RefundAgrees(Effective(p), p.refunded, done);
  }

  lemma ApplyRefundReportToKeeps(p: Payment, i: nat, report: RefundReport)
    requires Consistent(p) && i < |p.refunds|
    ensures var r := ApplyRefundReportTo(p, i, report); r.Ok? ==> Consistent(r.value.payment)
  {
    hide Succeed, Consistent;
    if ApplyRefundReportTo(p, i, report).Ok? {
      var r := p.refunds[i];
      var q := if r.providerId.None? then p.(refunds := p.refunds[i := r.(providerId := Some(report.id))]) else p;
      if r.providerId.None? { RefundLabelled(p, i, Some(report.id)); }
      if report.status == RefundDone && r.status in {Approved, InProcess} {
        SucceedKeeps(q, i);
      } else if r.status in {Approved, InProcess} {
        MoveRefundKeeps(q, i, if report.status in {RefundRefused, RefundCanceled} then RefundFailed else InProcess);
      }
    }
  }

  lemma RecordOutsideKeeps(p: Payment, report: RefundReport)
    requires Consistent(p)
    ensures RecordOutside(p, report).Ok? ==> Consistent(RecordOutside(p, report).value.payment)
  {
    hide Succeed, Share, BookAgrees, ChargebackAgrees, RefundsAgree;
    if RecordOutside(p, report).Ok? && Refundable(p.status) && report.status in {RefundDone, RefundPending} {
      var left := p.captured - p.refunded;
      var amount := if report.amount < left then report.amount else left;
      if amount > 0 {
        var r := Refund(amount, OutsideApp, FromOutside, None, None, Approved, Some(report.id), NOT_ALLOCATED);
        RefundAdded(p, r);
        var q := p.(refunds := p.refunds + [r]);
        if report.status == RefundDone {
          SucceedKeeps(q, |p.refunds|);
        } else {
          MoveRefundKeeps(q, |p.refunds|, InProcess);
        }
      }
    }
  }

  lemma ExecuteKeeps(p: Payment, i: nat, answer: RefundAnswer)
    requires Consistent(p) && i < |p.refunds|
    ensures Execute(p, i, answer).Ok? ==> Consistent(Execute(p, i, answer).value.payment)
  {
    hide ApplyRefundReportTo, Consistent;
    MoveRefundKeeps(p, i, RefundFailed);
    if answer.Answered? { ApplyRefundReportToKeeps(p, i, answer.report); }
  }

  lemma CreateByFinanceKeeps(p: Payment, actor: Actor, amount: Option<int>, reason: Reason, source: Source,
      answer: RefundAnswer)
    requires Consistent(p)
    ensures var r := CreateByFinance(p, actor, amount, reason, source, answer); r.Ok? ==> Consistent(r.value.payment)
  {
    hide Execute, Share;
    if CreateByFinance(p, actor, amount, reason, source, answer).Ok? {
      RequestsKeeps(p, amount, reason, source, Some(actor.id));
      var q, i := Requests(p, amount, reason, source, Some(actor.id)).value, |p.refunds|;
      if !NeedsHighApproval(p, q.refunds[i].amount) {
        MoveRefundKeeps(q, i, Approved);
        ExecuteKeeps(MoveRefund(q, i, Approved).value, i, answer);
      }
    }
  }

  lemma ApproveKeeps(p: Payment, i: nat, actor: Actor, answer: RefundAnswer)
    requires Consistent(p)
    ensures Approve(p, i, actor, answer).Ok? ==> Consistent(Approve(p, i, actor, answer).value.payment)
  {
    hide Execute, Share;
    if Approve(p, i, actor, answer).Ok? {
      var r := p.refunds[i].(approvedBy := Some(actor));
      RefundRewritten(p, i, r);
      var signed := p.(refunds := p.refunds[i := r]);
      MoveRefundKeeps(signed, i, Approved);
      ExecuteKeeps(MoveRefund(signed, i, Approved).value, i, answer);
    }
  }

  // ---------------------------------------------------------------------------
  // Disputes
  // ---------------------------------------------------------------------------

  /** The dispute rows carry no money of their own. */
  lemma DisputesRewritten(p: Payment, disputes: seq<Dispute>)
    requires Consistent(p)
    ensures Consistent(p.(disputes := disputes))
  {
  }

  /** A floor share is within its proportion by less than a cent, and nothing at all is within it too. */
  lemma ShareBound(part: nat, amount: nat, charged: nat)
    requires charged > 0
    ensures WithinShare(Share(part, amount, charged), part, amount, charged) && WithinShare(0, part, amount, charged)
    ensures !WithinShare(Share(part, amount, charged) + 1, part, amount, charged)
  {
  }

  lemma NothingLeftKeeps(p: Payment)
    requires Consistent(p) && p.status == Disputed
    ensures Consistent(p.(status := ChargedBack))
  {
    hide RefundsAgree, BookAgrees, WithinShare;
  }

  lemma ChargeBackKeeps(p: Payment, dispute: Option<nat>, reversed: bool)
    requires Consistent(p) && (dispute.Some? ==> dispute.value < |p.disputes|)
    ensures ChargeBack(p, dispute, reversed).Ok? && Consistent(ChargeBack(p, dispute, reversed).value.payment)
  {
    hide Share, EntriesOf, RefundsAgree, BookAgrees, WithinShare;
    if p.status == Disputed {
      var open := p.captured - p.refunded;
      var lost :=
        if dispute.Some? && p.disputes[dispute.value].amount < open then p.disputes[dispute.value].amount else open;
      if lost > 0 {
        var share := Share(Effective(p).technician, lost, Effective(p).Charge());
        ShareBound(Effective(p).technician, lost, Effective(p).Charge());
        var recovered := if share > 0 && reversed then share else 0;
        ChargedBackKeeps(p, lost, recovered, ChargeBack(p, dispute, reversed).value.payment);
      } else {
        NothingLeftKeeps(p);
      }
    }
  }

  lemma ChargedBackKeeps(p: Payment, lost: nat, recovered: nat, q: Payment)
    requires Consistent(p) && p.status == Disputed && 0 < lost <= p.captured - p.refunded
    requires WithinShare(recovered, Effective(p).technician, lost, Effective(p).Charge())
    requires Post(p.ledger, ChargebackEntry, ChargebackLines(lost, recovered)).Ok?
    requires q == p.(status := ChargedBack, disputes := q.disputes,
                     ledger := Post(p.ledger, ChargebackEntry, ChargebackLines(lost, recovered)).value)
    ensures Consistent(q)
  {
    hide Share, EntriesOf, Allocate, RefundsAgree;
    var lines := ChargebackLines(lost, recovered);
    PostKeepsBalanced(p.ledger, ChargebackEntry, lines);
    PostCounts(p.ledger, ChargebackEntry, lines);
    forall a, k ensures Sum(q.ledger, k, a) == Sum(p.ledger, k, a) + if k == ChargebackEntry then lines.At(a) else 0 {
      PostMoves(p.ledger, ChargebackEntry, lines, k, a);
    }
  }

  /** Opening or winning a dispute moves the status between states that agree with the same amounts. */
  lemma DisputeMove(p: Payment, to: PaymentStatus)
    requires Consistent(p) && AmountsAgree(p.(status := to)) && p.captured > 0
    requires p.status != ChargedBack && to != ChargedBack
    ensures Consistent(p.(status := to))
  {
    hide Share, WithinShare, BookAgrees;
    var q := p.(status := to);
  }

  lemma DisputeWonKeeps(p: Payment)
    requires Consistent(p)
    ensures DisputeWon(p).Ok? && Consistent(DisputeWon(p).value.payment)
  {
    if p.status == Disputed { DisputeMove(p, DisputeWon(p).value.payment.status); }
  }

  lemma SyncDisputeKeeps(p: Payment, report: DisputeReport, reversed: bool)
    requires Consistent(p)
    ensures SyncDispute(p, report, reversed).Ok? && Consistent(SyncDispute(p, report, reversed).value.payment)
  {
    hide FindDispute, DisputeWon, ChargeBack, BookAgrees, ChargebackAgrees, RefundsAgree;
    var k := FindDispute(p.disputes, report.id);
    var stored := DisputeStored(p, report).value;
    DisputesRewritten(p, stored.disputes);
    if stored.status != p.status { DisputeMove(p.(disputes := stored.disputes), Disputed); }
    if report.status in {Won, Lost} && stored.status == Disputed {
      var q := stored.(disputes := stored.disputes[k := stored.disputes[k].(closed := true)]);
      DisputesRewritten(stored, q.disputes);
      DisputeWonKeeps(q);
      ChargeBackKeeps(q, Some(k), reversed);
    }
  }

  // ---------------------------------------------------------------------------
  // Every call, every run
  // ---------------------------------------------------------------------------

  lemma VoidsProcessedKeeps(p: Payment)
    requires Consistent(p)
    ensures Consistent(p.(voids := 0))
  {
    hide RefundsAgree, BookAgrees, ChargebackAgrees;
  }

  lemma ChargeStepKeeps(p: Payment, e: Event)
    requires Consistent(p)
    requires e.Reported? || e.FullCapture? || e.PartCapture? || e.VisitFee? || e.Cancellation? || e.VoidProcessed?
    ensures Apply(p, e).Ok? ==> Consistent(Apply(p, e).value.payment)
  {
    hide Consistent, ApplyReport, CapturePart, CaptureVisitFee, Cancel;
    match e {
      case Reported(report) => ApplyReportKeeps(p, report);
      case FullCapture(answer) => if answer.Some? { ApplyReportKeeps(p, answer.value); }
      case PartCapture(price, terms, answer) => CapturePartKeeps(p, price, terms, answer);
      case VisitFee(fee, terms, answer, voided) => CaptureVisitFeeKeeps(p, fee, terms, answer, voided);
      case Cancellation(voided) => CancelKeeps(p, voided);
      case VoidProcessed => VoidsProcessedKeeps(p);
    }
  }

  lemma RefundStepKeeps(p: Payment, e: Event)
    requires Consistent(p)
    requires e.ClientRequest? || e.FinanceRefund? || e.Approval? || e.Rejection? || e.RefundReported? || e.Retry?
    ensures Apply(p, e).Ok? ==> Consistent(Apply(p, e).value.payment)
  {
    hide Consistent, Succeed, Execute, ApplyRefundReportTo, RecordOutside, CreateByFinance, Approve, Requests;
    match e {
      case ClientRequest(client, cents, reason) => RequestsKeeps(p, cents, reason, FromClient, Some(client));
      case FinanceRefund(actor, cents, reason, source, result) =>
        CreateByFinanceKeeps(p, actor, cents, reason, source, result);
      case Approval(i, actor, result) => ApproveKeeps(p, i, actor, result);
      case Rejection(i, actor) => if i < |p.refunds| { MoveRefundKeeps(p, i, Rejected); }
      case RefundReported(report) =>
        var found := Find(p.refunds, report);
        if found.Some? { ApplyRefundReportToKeeps(p, found.value, report); } else { RecordOutsideKeeps(p, report); }
      case Retry(i, result) => if i < |p.refunds| { ExecuteKeeps(p, i, result); }
    }
  }

  lemma StepKeeps(p: Payment, e: Event)
    requires Consistent(p)
    ensures Consistent(Step(p, e))
  {
    hide Consistent, ApplyReport, CapturePart, CaptureVisitFee, Cancel, ApplyRefundReport, CreateByFinance, Approve,
        Execute, Requests, SyncDispute, ChargeBack, DisputeWon;
    match e {
      case DisputeReported(report, reversed) => SyncDisputeKeeps(p, report, reversed);
      case DisputeEnded(won, reversed) => DisputeWonKeeps(p); ChargeBackKeeps(p, None, reversed);
      case Reported(_) | FullCapture(_) | PartCapture(_, _, _) | VisitFee(_, _, _, _)
        | Cancellation(_) | VoidProcessed => ChargeStepKeeps(p, e);
      case ClientRequest(_, _, _) | FinanceRefund(_, _, _, _, _) | Approval(_, _, _) | Rejection(_, _)
        | RefundReported(_) | Retry(_, _) => RefundStepKeeps(p, e);
    }
  }

  /** Whatever happens to a payment, in whatever order, it stays consistent. */
  lemma {:induction false} RunKeeps(p: Payment, events: seq<Event>)
    requires Consistent(p)
    ensures Consistent(Run(p, events))
    decreases |events|
  {
    if events == [] {
    } else {
      StepKeeps(p, events[0]);
      RunKeeps(Step(p, events[0]), events[1..]);
    }
  }
}
