/**
 The stored payment, changed field by field. Each call runs in a transaction: an error at any point puts
 every field back, and otherwise the fields end up where the payment's specification says.
 */
module PaymentFiles {
  import opened Results
  import opened Commission
  import opened Ledger
  import opened Payments

  class PaymentFile {
    const amount: nat
    const quote: Breakdown
    var status: PaymentStatus
    var captured: nat
    var refunded: nat
    var providerId: Option<nat>
    var partial: Option<Breakdown>
    var refunds: seq<Refund>
    var disputes: seq<Dispute>
    var ledger: seq<Entry>
    var voids: nat

    /** The payment these fields describe. */
    function View(): Payment
      reads this
    {
      Payment(amount, status, captured, refunded, providerId, quote, partial, refunds, disputes, ledger, voids)
    }

    /** A step inside a transaction: it reaches the specified state, or raises the specified error. */
    ghost predicate Ran(r: Result<Effect>, spec: Result<Outcome>)
      reads this
    {
      match spec
      case Ok(o) => r == Ok(o.effect) && View() == o.payment
      case Err(e) => r == Err(e)
    }

    constructor (quote: Breakdown)
      ensures View() == NewPayment(quote)
    {
      this.amount, this.quote := quote.Charge(), quote;
      status, captured, refunded, providerId, partial := Pending, 0, 0, None, None;
      refunds, disputes, ledger, voids := [], [], [], 0;
    }

    /** Rolls the transaction back. */
    method Restore(saved: Payment)
      requires saved.amount == amount && saved.quote == quote
      modifies this
      ensures View() == saved
    {
      status, captured, refunded, providerId := saved.status, saved.captured, saved.refunded, saved.providerId;
      partial, refunds, disputes := saved.partial, saved.refunds, saved.disputes;
      ledger, voids := saved.ledger, saved.voids;
    }

    // -------------------------------------------------------------------------
    // States and captures
    // -------------------------------------------------------------------------

    /** Tells whether the state changed. */
    method MoveTo(to: PaymentStatus) returns (r: Result<bool>)
      modifies this`status
      ensures match Move(old(View()), to)
              case Ok(p) => r == Ok(old(status) != to) && View() == p
              case Err(e) => r == Err(e)
    {
      if status == to { return Ok(false); }
      if !MoveAllowed(status, to) { return Err(InvalidTransition); }
      status := to;
      return Ok(true);
    }

    method RecordCapture(received: nat) returns (r: Result<Effect>)
      modifies this
      ensures Ran(r, Then(MarkCaptured(old(View()), received), CaptureConfirmed))
    {
      hide Compute, Post, CaptureLines;
      ghost var before := View();
      var moved :- MoveTo(Paid);
      if !moved { return Ok(CaptureConfirmed); }
      var effective := Effective(View());
      if received != 0 && received != effective.Charge() {
        var rebuilt := Rebuilt(View(), received);
        if rebuilt.Some? {
          partial := rebuilt;
          effective := rebuilt.value;
        }
      }
      captured := effective.Charge();
      assert Rebuilt(before.(status := Paid), received) == Rebuilt(before, received);
      ledger :- WriteGroup(ledger, CaptureEntry, CaptureLines(effective));
      return Ok(CaptureConfirmed);
    }

    method ApplyState(report: Report) returns (r: Result<Effect>)
      modifies this
      ensures Ran(r, ApplyReport(old(View()), report))
    {
      hide MarkCaptured;
      if providerId.None? { providerId := report.providerId; }
      var before, target := status, report.status;
      if target == before {
        return Ok(NoEffect);
      } else if target == Authorized && before in {Pending, RequiresAction, Processing} {
        var _ := MoveTo(Authorized);
      } else if target == Paid && before in {Pending, RequiresAction, Processing, Authorized} {
        if before != Authorized { var _ := MoveTo(Authorized); }
        r := RecordCapture(report.received);
        return r;
      } else if target == RequiresAction && before == Pending {
        var _ := MoveTo(RequiresAction);
      } else if target == Processing && before in {Pending, RequiresAction} {
        var _ := MoveTo(Processing);
      } else if target == Failed && Cancellable(before) {
        var _ := MoveTo(Failed);
        return Ok(PaymentDeclined);
      } else if target == Cancelled && Cancellable(before) {
        var _ :- MoveTo(Cancelled);
        return Ok(ReservationLost(before));
      } else if target == Authorized && !Live(before) && providerId.Some? && voids == 0 {
        voids := voids + 1;
      }
      return Ok(NoEffect);
    }

    method CancelReservation(voided: bool) returns (r: Result<Effect>)
      modifies this
      ensures Ran(r, Then(Cancel(old(View()), voided), NoEffect))
    {
      if !Cancellable(status) { return Ok(NoEffect); }
      var _ :- MoveTo(Cancelled);
      if providerId.Some? && !voided { voids := voids + 1; }
      return Ok(NoEffect);
    }

    method Capture(answer: Option<Report>) returns (r: Result<Effect>)
      modifies this
      ensures Ran(r, CaptureAll(old(View()), answer))
    {
      hide ApplyReport;
      if status != Authorized || providerId.None? { return Ok(NoEffect); }
      if answer.None? { return Err(ProviderUnavailable); }
      r := ApplyState(answer.value);
    }

    method CapturePartially(price: int, terms: Option<RuleTerms>, answer: Option<Report>) returns (r: Result<Effect>)
      modifies this
      ensures Ran(r, CapturePart(old(View()), price, terms, answer))
    {
      hide ApplyReport, Compute;
      if status != Authorized || providerId.None? { return Err(InvalidTransition); }
      var b :- Compute(price, if terms.Some? then terms.value else quote.terms, quote.taxes);
      if b.Charge() >= amount {
        r := Capture(answer);
        return r;
      }
      if partial.Some? { return Err(ConstraintViolation); }
      partial := Some(b);
      if answer.None? { return Err(ProviderUnavailable); }
      r := ApplyState(answer.value);
    }

    /** A provider that does not answer leaves the breakdown stored and the reservation voided. */
    method CaptureVisit(fee: int, terms: RuleTerms, answer: Option<Report>, voided: bool) returns (r: Result<Effect>)
      modifies this
      ensures Ran(r, CaptureVisitFee(old(View()), fee, terms, answer, voided))
    {
      hide ApplyReport, Compute, Cancel;
      if status != Authorized || providerId.None? { return Err(InvalidTransition); }
      var b := Compute(fee, terms, quote.taxes);
      if b.Ok? && answer.Some? {
        r := CapturePartially(fee, Some(terms), answer);
        return r;
      }
      if b.Ok? && b.value.Charge() < amount {
        if partial.Some? { return Err(ConstraintViolation); }
        partial := Some(b.value);
      }
      r := CancelReservation(voided);
    }

    // -------------------------------------------------------------------------
    // Refunds
    // -------------------------------------------------------------------------

    method Create(cents: Option<int>, reason: Reason, source: Source, requestedBy: Option<nat>) returns (r: Result<nat>)
      modifies this`refunds
      ensures match Requests(old(View()), cents, reason, source, requestedBy)
              case Ok(p) => r == Ok(|old(refunds)|) && View() == p
              case Err(e) => r == Err(e)
    {
      hide OpenCents;
      if PolicyOf(reason).None? { return Err(InvalidReason); }
      if !Refundable(status) { return Err(NotRefundable); }
      if HasOpen(refunds) { return Err(AlreadyOpen); }
      var available := RefundableCents(View());
      var wanted := if cents.None? then available else cents.value;
      if !(0 < wanted <= available) { return Err(ExceedsCaptured); }
      refunds := refunds + [Refund(wanted, reason, source, requestedBy, None, Requested, None, NOT_ALLOCATED)];
      return Ok(|refunds| - 1);
    }

    method MoveRefundTo(i: nat, to: RefundStatus) returns (r: Result<Effect>)
      requires i < |refunds|
      modifies this`refunds
      ensures Ran(r, Then(MoveRefund(old(View()), i, to), NoEffect))
    {
      if refunds[i].status == to { return Ok(NoEffect); }
      if !RefundMoveAllowed(refunds[i].status, to) { return Err(InvalidTransition); }
      refunds := refunds[i := refunds[i].(status := to)];
      return Ok(NoEffect);
    }

    method Confirm(i: nat) returns (r: Result<Effect>)
      requires i < |refunds|
      modifies this
      ensures Ran(r, Succeed(old(View()), i))
    {
      hide Allocate, Effective, PolicyOf, Post;
      var refund := refunds[i];
      if PolicyOf(refund.reason).None? { return Err(InvalidReason); }
      var allocation := Allocate(Effective(View()), refund.amount, PolicyOf(refund.reason).value);
      refunds := refunds[i := refund.(allocation := allocation)];
      var _ :- MoveRefundTo(i, Succeeded);
      var total := refunded + refund.amount;
      var full := total >= captured;
      if status != Disputed {
        var _ :- MoveTo(if full then PaymentStatus.Refunded else PartiallyRefunded);
      }
      refunded := if full then captured else total;
      ledger :- WriteGroup(ledger, RefundEntry, RefundLines(refund.amount, allocation));
      return Ok(if full then FullyRefunded else NoEffect);
    }

    method ApplyRefundState(i: nat, report: RefundReport) returns (r: Result<Effect>)
      requires i < |refunds|
      modifies this
      ensures Ran(r, ApplyRefundReportTo(old(View()), i, report))
    {
      hide Succeed;
      var s := refunds[i].status;
      if refunds[i].providerId.None? {
        if ProviderIdTaken(refunds, i, report.id) { return Err(ConstraintViolation); }
        refunds := refunds[i := refunds[i].(providerId := Some(report.id))];
      }
      if report.status == RefundDone && s in {Approved, InProcess} {
        r := Confirm(i);
      } else if report.status in {RefundRefused, RefundCanceled} && s in {Approved, InProcess} {
        r := MoveRefundTo(i, RefundFailed);
      } else if report.status in {RefundPending, RefundNeedsAction} && s == Approved {
        r := MoveRefundTo(i, InProcess);
      } else {
        r := Ok(NoEffect);
      }
    }

    method RecordFromOutside(report: RefundReport) returns (r: Result<Effect>)
      modifies this
      ensures Ran(r, RecordOutside(old(View()), report))
    {
      hide Succeed;
      if !Refundable(status) || report.status !in {RefundDone, RefundPending} { return Ok(NoEffect); }
      var left := captured - refunded;
      var cents := if report.amount < left then report.amount else left;
      if cents <= 0 { return Ok(NoEffect); }
      if HasOpen(refunds) { return Err(ConstraintViolation); }
      var i := |refunds|;
      refunds :=
        refunds + [Refund(cents, OutsideApp, FromOutside, None, None, Requested, Some(report.id), NOT_ALLOCATED)];
      var _ := MoveRefundTo(i, Approved);
      ghost var added := Refund(cents, OutsideApp, FromOutside, None, None, Approved, Some(report.id), NOT_ALLOCATED);
      assert refunds == old(refunds) + [added];
      if report.status == RefundDone { r := Confirm(i); } else { r := MoveRefundTo(i, InProcess); }
    }

    method ApplyRefund(report: RefundReport) returns (r: Result<Effect>)
      modifies this
      ensures Ran(r, ApplyRefundReport(old(View()), report))
    {
      hide Find, ApplyRefundReportTo, RecordOutside;
      var found := Find(refunds, report);
      if found.Some? { r := ApplyRefundState(found.value, report); } else { r := RecordFromOutside(report); }
    }

    method Send(i: nat, answer: RefundAnswer) returns (r: Result<Effect>)
      requires i < |refunds|
      modifies this
      ensures Ran(r, Execute(old(View()), i, answer))
    {
      hide ApplyRefundReportTo;
      if refunds[i].status != Approved { return Ok(NoEffect); }
      if !Refundable(status) {
        r := MoveRefundTo(i, RefundFailed);
        return r;
      }
      match answer {
        case Unreachable => r := Ok(NoEffect);
        case Declined => r := MoveRefundTo(i, RefundFailed);
        case Answered(report) => r := ApplyRefundState(i, report);
      }
    }

    method RefundByFinance(actor: Actor, cents: Option<int>, reason: Reason, source: Source, answer: RefundAnswer)
      returns (r: Result<Effect>)
      modifies this
      ensures Ran(r, CreateByFinance(old(View()), actor, cents, reason, source, answer))
    {
      hide Execute, OpenCents;
      if !actor.mayRefund { return Err(Forbidden); }
      var i :- Create(cents, reason, source, Some(actor.id));
      if NeedsHighApproval(View(), refunds[i].amount) { return Ok(NoEffect); }
      var _ := MoveRefundTo(i, Approved);
      r := Send(i, answer);
    }

    method ApproveRefund(i: nat, actor: Actor, answer: RefundAnswer) returns (r: Result<Effect>)
      modifies this
      ensures Ran(r, Approve(old(View()), i, actor, answer))
    {
      hide Execute;
      if !actor.mayRefund { return Err(Forbidden); }
      if i >= |refunds| { return Err(NotFound); }
      if refunds[i].status != Requested { return Err(NotPending); }
      if refunds[i].requestedBy == Some(actor.id) { return Err(FourEyes); }
      if NeedsHighApproval(View(), refunds[i].amount) && !actor.mayApproveHigh { return Err(Forbidden); }
      if !Refundable(status) { return Err(NotRefundable); }
      refunds := refunds[i := refunds[i].(approvedBy := Some(actor))];
      var _ := MoveRefundTo(i, Approved);
      r := Send(i, answer);
    }

    method RejectRefund(i: nat, actor: Actor) returns (r: Result<Effect>)
      modifies this
      ensures Ran(r, Reject(old(View()), i, actor))
    {
      if !actor.mayRefund { return Err(Forbidden); }
      if i >= |refunds| { return Err(NotFound); }
      if refunds[i].status != Requested { return Err(NotPending); }
      r := MoveRefundTo(i, Rejected);
    }

    // -------------------------------------------------------------------------
    // Disputes
    // -------------------------------------------------------------------------

    method LoseDispute(dispute: Option<nat>, reversed: bool) returns (r: Result<Effect>)
      requires dispute.Some? ==> dispute.value < |disputes|
      modifies this
      ensures Ran(r, ChargeBack(old(View()), dispute, reversed))
    {
      hide Share, EntriesOf;
      if status != Disputed { return Ok(NoEffect); }
      var lost := captured - refunded;
      if dispute.Some? && disputes[dispute.value].amount < lost { lost := disputes[dispute.value].amount; }
      var _ := MoveTo(ChargedBack);
      if lost <= 0 { return Ok(NoEffect); }
      var share := Share(Effective(View()).technician, lost, Effective(View()).Charge());
      var recovered := if share > 0 && reversed then share else 0;
      if dispute.Some? {
        disputes := disputes[dispute.value := disputes[dispute.value].(recovered := recovered)];
      }
      var book := WriteGroup(ledger, ChargebackEntry, ChargebackLines(lost, recovered));
      ledger := book.value;
      return Ok(NoEffect);
    }

    method WinDispute() returns (r: Result<Effect>)
      modifies this
      ensures Ran(r, DisputeWon(old(View())))
    {
      if status != Disputed { return Ok(NoEffect); }
      if refunded >= captured > 0 {
        var _ := MoveTo(PaymentStatus.Refunded);
        return Ok(FullyRefunded);
      }
      var _ := MoveTo(if refunded > 0 then PartiallyRefunded else Paid);
      return Ok(NoEffect);
    }

    method SyncFromProvider(report: DisputeReport, reversed: bool) returns (r: Result<Effect>)
      modifies this
      ensures Ran(r, SyncDispute(old(View()), report, reversed))
    {
      hide ChargeBack, DisputeWon;
      var k := FindDispute(disputes, report.id);
      if k == |disputes| {
        var cents := if report.amount > 1 then report.amount else 1;
        disputes := disputes + [Dispute(report.id, cents, report.status, 0, false)];
        if Refundable(status) { var _ := MoveTo(Disputed); }
      } else {
        disputes := disputes[k := disputes[k].(status := report.status)];
      }
      if report.status in {Won, Lost} && status == Disputed {
        disputes := disputes[k := disputes[k].(closed := true)];
        if report.status == Won { r := WinDispute(); } else { r := LoseDispute(Some(k), reversed); }
      } else {
        r := Ok(NoEffect);
      }
    }

    // -------------------------------------------------------------------------
    // Transactions
    // -------------------------------------------------------------------------

    method Run(e: Event) returns (r: Result<Effect>)
      modifies this
      ensures Ran(r, Apply(old(View()), e))
    {
      hide ApplyReport, CaptureAll, CapturePart, CaptureVisitFee, Cancel, Requests, CreateByFinance, Approve, Reject,
        ApplyRefundReport, Execute, SyncDispute, DisputeWon, ChargeBack;
      match e {
        case Reported(report) => r := ApplyState(report);
        case FullCapture(answer) => r := Capture(answer);
        case PartCapture(price, terms, answer) => r := CapturePartially(price, terms, answer);
        case VisitFee(fee, terms, answer, voided) => r := CaptureVisit(fee, terms, answer, voided);
        case Cancellation(voided) => r := CancelReservation(voided);
        case ClientRequest(client, cents, reason) =>
          if PolicyOf(reason).None? || !PolicyOf(reason).value.clientMayRequest { return Err(InvalidReason); }
          var _ :- Create(cents, reason, FromClient, Some(client));
          r := Ok(NoEffect);
        case FinanceRefund(actor, cents, reason, source, result) =>
          r := RefundByFinance(actor, cents, reason, source, result);
        case Approval(i, actor, result) => r := ApproveRefund(i, actor, result);
        case Rejection(i, actor) => r := RejectRefund(i, actor);
        case RefundReported(report) => r := ApplyRefund(report);
        case Retry(i, result) =>
          if i >= |refunds| { return Err(NotFound); }
          r := Send(i, result);
        case DisputeReported(report, reversed) => r := SyncFromProvider(report, reversed);
        case DisputeEnded(won, reversed) =>
          if won { r := WinDispute(); } else { r := LoseDispute(None, reversed); }
        case VoidProcessed =>
          voids := 0;
          r := Ok(NoEffect);
      }
    }

    /** One call: it commits, or the payment is as if it had never been made. */
    method Transact(e: Event) returns (r: Result<Effect>)
      modifies this
      ensures View() == Step(old(View()), e)
      ensures r == (match Apply(old(View()), e) case Ok(o) => Ok(o.effect) case Err(error) => Err(error))
    {
      hide Apply;
      var saved := View();
      r := Run(e);
      if r.Err? { Restore(saved); }
    }
  }
}
