/** What each call promises of one payment: which rows it writes, with what, and what stays as it was. */
module PaymentEffects {
  import opened Results
  import opened Commission
  import opened Ledger
  import opened Payments
  import opened PaymentInvariants
  import opened PaymentTheorems

  // ---------------------------------------------------------------------------
  // Reports of the charge
  // ---------------------------------------------------------------------------

  /** A price that explains an amount under the terms that were quoted. */
  ghost predicate Explained(p: Payment, received: nat) {
    exists price: int :: Explains(p, price, received)
  }

  predicate Explains(p: Payment, price: int, received: nat) {
    var b := Compute(price, p.quote.terms, p.quote.taxes);
    b.Ok? && b.value.Charge() == received
  }

  /**
   The report of a charge settles on the breakdown that was expected, unless nothing was stored for a partial
   capture and less than the reservation came in that some price explains: then on the breakdown of that price.
   */
  lemma ChargeSettles(p: Payment, report: Report)
    requires Consistent(p) && Cancellable(p.status) && report.status == Paid
    ensures var q := Step(p, Reported(report));
            && q.status == Paid && q.refunded == 0 && q.captured == Effective(q).Charge()
            && (if p.partial.None? && 0 < report.received < p.amount && Explained(p, report.received)
                then q.captured == report.received
                else q.captured == Effective(p).Charge() && Effective(q) == Effective(p))
  {
    hide Consistent, MarkCaptured, Settled, Explained;
    var known := Known(p, report.providerId);
    KnownKeeps(p, report.providerId);
    CaptureReportKeeps(known, report.received);
    MarkedSettled(known.(status := Authorized), report.received);
    NothingRefunded(p);
    Settles(p, report.received);
    SameSettled(p, known.(status := Authorized), report.received);
  }

  lemma NothingRefunded(p: Payment)
    requires Consistent(p) && Cancellable(p.status)
    ensures p.refunded == 0 && p.amount == p.quote.Charge() && p.voids == 0
  {
    hide RefundsAgree, BookAgrees, ChargebackAgrees, RowAdmitted;
  }

  lemma SameSettled(p: Payment, q: Payment, received: nat)
    requires q == p.(providerId := q.providerId, status := q.status)
    ensures Settled(q, received) == Settled(p, received)
  {
    hide Compute;
  }

  lemma MarkedSettled(p: Payment, received: nat)
    requires p.status == Authorized && MarkCaptured(p, received).Ok?
    ensures var q := MarkCaptured(p, received).value;
            q == p.(status := Paid, partial := Settled(p, received), captured := Effective(q).Charge(),
                    ledger := q.ledger)
  {
    hide Settled, Post;
  }

  lemma Settles(p: Payment, received: nat)
    requires p.amount == p.quote.Charge()
    ensures var after := p.(partial := Settled(p, received));
            if p.partial.None? && 0 < received < p.amount && Explained(p, received)
            then Effective(after).Charge() == received else after == p
  {
    hide Compute, PriceForCharge;
    if 0 < received < p.amount && Explained(p, received) {
      var price :| Explains(p, price, received);
      SplitRebuiltFromCharge(price, p.quote.terms, p.quote.taxes);
    }
    assert Rebuilt(p, received).Some? ==> Explains(p, PriceForCharge(received, p.quote.taxes.serviceBp), received);
  }

  /** The book of a payment that was charged and has given nothing back: each account got its own part. */
  lemma ChargePosts(p: Payment)
    requires Consistent(p) && p.status == Paid && forall r :: r in p.refunds ==> r.status != Succeeded
    ensures var b := Effective(p);
            && Balance(p.ledger, Customer) == -(b.gross - b.discount)
            && Balance(p.ledger, TechnicianPayable) == b.technician
            && Balance(p.ledger, PlatformRevenue) == b.commission
            && Balance(p.ledger, VatPayable) == b.commissionTax
            && Balance(p.ledger, TaxWithheld) == b.isr + b.iva
            && Balance(p.ledger, Account.Refunds) == 0
  {
    forall a ensures Balance(p.ledger, a) == CaptureLines(Effective(p)).At(a) {
      NothingDone(p.refunds, a);
      BalanceExplained(p, a);
      hide RefundsAgree, BookAgrees, AmountsAgree, WithinShare;
    }
    hide Consistent;
  }

  lemma {:induction false} NothingDone(refunds: seq<Refund>, a: Account)
    requires forall r :: r in refunds ==> r.status != Succeeded
    ensures Total(refunds, Posted(a)) == 0
  {
    if refunds == [] {
    } else {
      NothingDone(refunds[..|refunds| - 1], a);
      assert refunds[|refunds| - 1] in refunds;
    }
  }

  /** A reservation that the provider declines or loses is dead, and nothing else about it changes. */
  lemma ReservationDies(p: Payment, report: Report)
    requires Cancellable(p.status) && (report.status == Failed || report.status == Cancelled)
    ensures var r := Apply(p, Reported(report));
            && (r.Ok? <==> report.status == Failed || p.status != Processing)
            && (r.Ok? ==> r.value.payment == Known(p, report.providerId).(status := report.status)
                          && r.value.effect == if report.status == Failed then PaymentDeclined
                              else ReservationLost(p.status))
  {
  }

  /**
   A report on a payment that is charged or dead changes nothing but an unknown provider id. The one exception is
   an authorization of a dead payment: its void is queued, once.
   */
  lemma LateReportIgnored(p: Payment, report: Report)
    requires Consistent(p) && !Cancellable(p.status)
    ensures var r, known := Apply(p, Reported(report)), Known(p, report.providerId);
            var reserved := report.status == Authorized && (p.status == Failed || p.status == Cancelled)
                            && known.providerId.Some?;
            r == Ok(Outcome(if reserved then known.(voids := 1) else known, NoEffect))
  {
    hide RefundsAgree, BookAgrees, ChargebackAgrees, AmountsAgree;
  }

  /** A dead payment has a queued void only until it is processed; a later authorization queues it again. */
  lemma VoidIsProcessed(p: Payment, report: Report)
    requires Consistent(p)
    ensures var q := Step(p, VoidProcessed);
            && q == p.(voids := 0)
            && (!Live(p.status) && p.providerId.Some? && report.status == Authorized ==>
                  Step(q, Reported(report)) == p.(voids := 1))
  {
    VoidsProcessedKeeps(p);
    hide Consistent;
    if !Live(p.status) { LateReportIgnored(p.(voids := 0), report); }
  }

  /**
   The visit fee ends the reservation: an answer that it is paid leaves its charge as the only one; without an
   answer, or without a split for it, the reservation is given up, and its void is queued unless it went through.
   */
  lemma VisitFeeEnds(p: Payment, fee: int, terms: RuleTerms, answer: Option<Report>, voided: bool)
    requires Consistent(p) && p.status == Authorized && p.providerId.Some? && p.partial.None?
    ensures var r, b := Apply(p, VisitFee(fee, terms, answer, voided)), Compute(fee, terms, p.quote.taxes);
            && (answer.None? || b.Err? ==>
                  r == Ok(Outcome(p.(status := Cancelled, voids := if voided then 0 else 1,
                                     partial := if b.Ok? && b.value.Charge() < p.amount then Some(b.value) else None),
                                  NoEffect)))
            && (answer.Some? && answer.value.status == Paid && b.Ok? && b.value.Charge() < p.amount ==>
                  r.Ok? && r.value.payment.status == Paid && r.value.payment.captured == b.value.Charge()
                  && r.value.payment.partial == Some(b.value))
  {
    hide Compute, Consistent, MarkCaptured, Step;
    var b := Compute(fee, terms, p.quote.taxes);
    NothingRefunded(p);
    if b.Ok? && b.value.Charge() < p.amount && answer.Some? && answer.value.status == Paid {
      StoredSettles(p, b.value, answer.value);
    }
  }

  /** With a partial breakdown stored, the report of a charge settles on it whatever amount it carries. */
  lemma StoredSettles(p: Payment, b: Breakdown, report: Report)
    requires Consistent(p) && p.status == Authorized && b.Charge() < p.amount && report.status == Paid
    ensures var r := ApplyReport(p.(partial := Some(b)), report);
            && r.Ok? && r.value.payment.status == Paid && r.value.payment.captured == b.Charge()
            && r.value.payment.partial == Some(b) && r.value.effect == CaptureConfirmed
  {
    hide Consistent, MarkCaptured;
    var stored := p.(partial := Some(b));
    NothingRefunded(p);
    UnchargedMove(p, stored);
    var known := Known(stored, report.providerId);
    KnownKeeps(stored, report.providerId);
    CaptureReportKeeps(known, report.received);
    MarkedSettled(known, report.received);
    assert Settled(known, report.received) == Some(b) by { hide Compute; }
  }

  /** A full capture asks the provider only for a reservation it knows, and then takes its answer as any report. */
  lemma FullCaptureReports(p: Payment, answer: Option<Report>)
    ensures var r := Apply(p, FullCapture(answer));
            if p.status != Authorized || p.providerId.None? then r == Ok(Outcome(p, NoEffect))
            else if answer.None? then r == Err(ProviderUnavailable)
            else r == Apply(p, Reported(answer.value))
  {
    hide ApplyReport;
  }

  /** A partial capture charges what its price comes to with tax, whatever amount the answer names. */
  lemma PartCaptureSettles(p: Payment, price: int, terms: Option<RuleTerms>, answer: Report)
    requires Consistent(p) && Apply(p, PartCapture(price, terms, Some(answer))).Ok?
    ensures var q := Step(p, PartCapture(price, terms, Some(answer)));
            && p.status == Authorized && price > 0
            && (WithTax(price, p.quote.taxes.serviceBp) < p.amount ==>
                  && p.partial.None? && q.partial.Some? && q.partial.value.price == price
                  && q.partial.value.terms == (if terms.Some? then terms.value else p.quote.terms)
                  && (answer.status == Paid ==>
                        q.status == Paid && q.captured == WithTax(price, p.quote.taxes.serviceBp)))
  {
    hide Consistent, MarkCaptured, WithTax;
    var b := Compute(price, TermsOr(terms, p), p.quote.taxes).value;
    if b.Charge() < p.amount {
      if answer.status == Paid {
        StoredSettles(p, b, answer);
      } else {
        StatusReportShape(p.(partial := Some(b)), answer);
      }
    }
  }

  // ---------------------------------------------------------------------------
  // Refunds asked for
  // ---------------------------------------------------------------------------

  /** What is asked for: the amount named, or else everything that was charged and not given back. */
  function Asked(p: Payment, cents: Option<int>): int {
    if cents.Some? then cents.value else p.captured - p.refunded
  }

  /** A refund may be opened: the money is in, no other refund is open, and the amount is within what is left. */
  predicate MayOpen(p: Payment, cents: Option<int>) {
    && (p.status == Paid || p.status == PartiallyRefunded)
    && (forall i :: 0 <= i < |p.refunds| ==> p.refunds[i].status !in {Requested, Approved, InProcess})
    && 0 < Asked(p, cents) <= p.captured - p.refunded
  }

  /** One row was added, with what was asked for and by whom; the earlier ones are as they were. */
  predicate Opened(p: Payment, q: Payment, cents: Option<int>, reason: Reason, source: Source, asker: nat) {
    && |q.refunds| == |p.refunds| + 1 && q.refunds[..|p.refunds|] == p.refunds
    && var added := q.refunds[|p.refunds|];
       && added.amount == Asked(p, cents) && added.reason == reason && added.source == source
       && added.requestedBy == Some(asker) && added.approvedBy.None?
  }

  lemma RefundOpens(p: Payment, cents: Option<int>, reason: Reason, source: Source, asker: nat)
    requires Consistent(p)
    ensures var r := Requests(p, cents, reason, source, Some(asker));
            && (r.Ok? <==> reason != UnknownReason && MayOpen(p, cents))
            && (r.Ok? ==> r.value == p.(refunds := r.value.refunds) && Opened(p, r.value, cents, reason, source, asker)
                          && var added := r.value.refunds[|p.refunds|];
                             added.status == Requested && added.providerId.None? && added.allocation == NOT_ALLOCATED)
  {
    hide BookAgrees, ChargebackAgrees, RefundAgrees;
    OpenCentsIsTotal(p.refunds);
    if HasOpen(p.refunds) {
      var i :| 0 <= i < |p.refunds| && p.refunds[i].Open();
      assert p.refunds[i].status in {Requested, Approved, InProcess};
    } else {
      NoneOpen(p.refunds);
      forall i | 0 <= i < |p.refunds| ensures p.refunds[i].status !in {Requested, Approved, InProcess} {
        assert !p.refunds[i].Open();
      }
    }
  }

  /**
   A client's request is accepted exactly for a service that failed or a charge made twice, on a payment that can
   give the amount back; it adds the refund asked for, waiting for finance, and moves no money.
   */
  lemma ClientRequestOpens(p: Payment, client: nat, cents: Option<int>, reason: Reason)
    requires Consistent(p)
    ensures var r := Apply(p, ClientRequest(client, cents, reason));
            && (r.Ok? <==> reason in {ServiceNotProvided, ServiceDeficient, DuplicateCharge} && MayOpen(p, cents))
            && (r.Ok? ==> var q := r.value.payment;
                          && r.value.effect == NoEffect && q == p.(refunds := q.refunds)
                          && Opened(p, q, cents, reason, FromClient, client)
                          && q.refunds[|p.refunds|].status == Requested)
  {
    hide Requests, Consistent, MayOpen;
    RefundOpens(p, cents, reason, FromClient, client);
  }

  // ---------------------------------------------------------------------------
  // Answers of the provider to a refund
  // ---------------------------------------------------------------------------

  /** What the provider's word makes of a refund: only one that was sent, or is about to be, can move. */
  function Told(s: RefundStatus, word: RefundAnswerStatus): RefundStatus {
    if s != Approved && s != InProcess then s
    else match word
      case RefundDone => Succeeded
      case RefundRefused | RefundCanceled => RefundFailed
      case RefundPending | RefundNeedsAction => InProcess
      case RefundOther => s
  }

  /** Only the row `i` may differ, and it is still the same request, signed by the same person. */
  predicate OnlyRow(p: Payment, q: Payment, i: nat) {
    && i < |p.refunds| == |q.refunds|
    && (forall k :: 0 <= k < |p.refunds| && k != i ==> q.refunds[k] == p.refunds[k])
    && var a, b := p.refunds[i], q.refunds[i];
       b == a.(status := b.status, providerId := b.providerId, allocation := b.allocation)
  }

  /**
   What a refund that becomes final does to its payment: a success is counted, and moves the payment unless it is
   in dispute; anything else leaves the money and the state alone.
   */
  predicate Counted(p: Payment, o: Outcome, i: nat)
    requires OnlyRow(p, o.payment, i)
  {
    var q, full := o.payment, o.payment.refunded == p.captured;
    if p.refunds[i].status != Succeeded && q.refunds[i].status == Succeeded then
      && q.refunded == p.refunded + p.refunds[i].amount && q.captured == p.captured
      && q.status == (if p.status == Disputed then Disputed
                      else if full then PaymentStatus.Refunded else PartiallyRefunded)
      && o.effect == (if full then FullyRefunded else NoEffect)
    else
      q == p.(refunds := q.refunds) && o.effect == NoEffect
  }

  lemma RefundSucceeds(p: Payment, i: nat)
    requires Consistent(p) && i < |p.refunds| && (p.refunds[i].status == Approved || p.refunds[i].status == InProcess)
    requires Refundable(p.status) || p.status == Disputed
    ensures var r := Succeed(p, i);
            && r.Ok? && OnlyRow(p, r.value.payment, i) && r.value.payment.refunds[i].status == Succeeded
            && r.value.payment.refunds[i].providerId == p.refunds[i].providerId
            && Counted(p, r.value, i)
  {
    hide Allocate, Post, BookAgrees, ChargebackAgrees, RefundAgrees, Total, PolicyOf;
    SucceedKeeps(p, i);
    OneOpen(p.refunds, i);
  }

  /** The provider's word on one refund moves that refund and no other. */
  lemma RefundTold(p: Payment, i: nat, report: RefundReport)
    requires Consistent(p) && i < |p.refunds|
    ensures var r, s := ApplyRefundReportTo(p, i, report), Told(p.refunds[i].status, report.status);
            && (r.Ok? <==>
                  && (p.refunds[i].providerId.None? ==>
                        forall k :: 0 <= k < |p.refunds| ==> p.refunds[k].providerId != Some(report.id))
                  && (s == Succeeded && p.refunds[i].status != Succeeded ==>
                        Refundable(p.status) || p.status == Disputed))
            && (r.Ok? ==> OnlyRow(p, r.value.payment, i) && Counted(p, r.value, i)
                          && r.value.payment.refunds[i].status == s
                          && r.value.payment.refunds[i].providerId
                             == if p.refunds[i].providerId.None? then Some(report.id) else p.refunds[i].providerId)
  {
    hide Consistent, Succeed;
    var q := if p.refunds[i].providerId.None?
        then p.(refunds := p.refunds[i := p.refunds[i].(providerId := Some(report.id))]) else p;
    if p.refunds[i].providerId.None? {
      RefundLabelled(p, i, Some(report.id));
      if !ProviderIdTaken(p.refunds, i, report.id) {
        forall k | 0 <= k < |p.refunds| ensures p.refunds[k].providerId != Some(report.id) {}
      }
    }
    if report.status == RefundDone && p.refunds[i].status in {Approved, InProcess} {
      SucceedKeeps(q, i);
      if Refundable(p.status) || p.status == Disputed { RefundSucceeds(q, i); }
    }
  }

  /** What becomes of an approved refund that is sent. */
  function Sent(answer: RefundAnswer): RefundStatus {
    match answer
    case Unreachable => Approved
    case Declined => RefundFailed
    case Answered(report) => Told(Approved, report.status)
  }

  /** Sending an approved refund leaves it as the answer says; on a payment in dispute it fails unsent. */
  lemma RefundSent(p: Payment, i: nat, answer: RefundAnswer)
    requires Consistent(p) && i < |p.refunds| && p.refunds[i].status == Approved
    ensures var r := Apply(p, Retry(i, answer));
            && (r.Err? <==> Refundable(p.status) && answer.Answered? && p.refunds[i].providerId.None?
                            && exists k :: 0 <= k < |p.refunds| && p.refunds[k].providerId == Some(answer.report.id))
            && (r.Ok? ==> OnlyRow(p, r.value.payment, i) && Counted(p, r.value, i)
                          && r.value.payment.refunds[i].status
                             == if Refundable(p.status) then Sent(answer) else RefundFailed)
  {
    hide Consistent, ApplyRefundReportTo;
    if answer.Answered? { RefundTold(p, i, answer.report); }
  }

  /** An id of the provider that an answer brings and that another refund already has. */
  predicate IdClash(p: Payment, answer: RefundAnswer) {
    && answer.Answered?
    && exists k :: 0 <= k < |p.refunds| && p.refunds[k].providerId == Some(answer.report.id)
  }

  /**
   A refund by finance adds the refund asked for. Up to the threshold, counted with what was given back before, it is
   sent at once and stands as the provider answers; above it, it waits for a second signature and nothing moves.
   */
  lemma FinanceRefundOpens(p: Payment, actor: Actor, cents: Option<int>, reason: Reason, source: Source,
      answer: RefundAnswer)
    requires Consistent(p)
    ensures var r, waits := Apply(p, FinanceRefund(actor, cents, reason, source, answer)),
                            p.refunded + Asked(p, cents) > HIGH_REFUND_CENTS;
            && (r.Ok? <==> actor.mayRefund && reason != UnknownReason && MayOpen(p, cents)
                           && (waits || !IdClash(p, answer)))
            && (r.Ok? ==> var q, n := r.value.payment, |p.refunds|;
                          && Opened(p, q, cents, reason, source, actor.id)
                          && q.refunds[n].status == (if waits then Requested else Sent(answer))
                          && q.captured == p.captured
                          && q.refunded == p.refunded
                             + (if q.refunds[n].status == Succeeded then Asked(p, cents) else 0)
                          && (q.refunds[n].status != Succeeded ==> q == p.(refunds := q.refunds))
                          && r.value.effect == if q.refunded == p.captured then FullyRefunded else NoEffect)
  {
    hide Consistent, Requests, Execute, MayOpen;
    RefundOpens(p, cents, reason, source, actor.id);
    var created := Requests(p, cents, reason, source, Some(actor.id));
    if MayOpen(p, cents) { Opening(p, cents); }
    if actor.mayRefund && created.Ok? && p.refunded + Asked(p, cents) <= HIGH_REFUND_CENTS {
      var n := |p.refunds|;
      RequestsKeeps(p, cents, reason, source, Some(actor.id));
      ApprovedKeeps(created.value, n);
      var approved := MoveRefund(created.value, n, Approved).value;
      RefundSent(approved, n, answer);
      assert forall k :: 0 <= k < n ==> approved.refunds[k] == p.refunds[k];
      if Execute(approved, n, answer).Ok? {
        var q := Execute(approved, n, answer).value.payment;
        assert q.refunds[..n] == p.refunds;
      }
    }
  }

  lemma Opening(p: Payment, cents: Option<int>)
    requires Consistent(p) && MayOpen(p, cents)
    ensures Refundable(p.status) && p.refunded < p.captured
  {
  }

  /**
   A signature is taken exactly from a person of finance other than who asked, with the high permission above the
   threshold, on a refund that waits and a payment that can be refunded; then the refund is signed and sent.
   */
  lemma ApprovalSigns(p: Payment, i: nat, actor: Actor, answer: RefundAnswer)
    requires Consistent(p) && i < |p.refunds|
    ensures var r, a := Apply(p, Approval(i, actor, answer)), p.refunds[i];
            && (r.Ok? <==>
                  && actor.mayRefund && a.status == Requested && a.requestedBy != Some(actor.id)
                  && (p.refunded + a.amount > HIGH_REFUND_CENTS ==> actor.mayApproveHigh)
                  && Refundable(p.status) && (a.providerId.Some? || !IdClash(p, answer)))
            && (r.Ok? ==> var q := r.value.payment;
                          && OnlyRow(p.(refunds := p.refunds[i := a.(approvedBy := Some(actor))]), q, i)
                          && q.refunds[i].status == Sent(answer) && q.captured == p.captured
                          && q.refunded == p.refunded + if q.refunds[i].status == Succeeded then a.amount else 0)
  {
    hide Consistent, Execute;
    var signed := p.(refunds := p.refunds[i := p.refunds[i].(approvedBy := Some(actor))]);
    if actor.mayRefund && p.refunds[i].status == Requested && p.refunds[i].requestedBy != Some(actor.id)
       && (p.refunded + p.refunds[i].amount > HIGH_REFUND_CENTS ==> actor.mayApproveHigh) && Refundable(p.status) {
      SignedKeeps(p, i, actor);
      var approved := MoveRefund(signed, i, Approved).value;
      RefundSent(approved, i, answer);
      forall k | 0 <= k < |p.refunds| ensures approved.refunds[k].providerId == p.refunds[k].providerId {}
    }
  }

  lemma SignedKeeps(p: Payment, i: nat, actor: Actor)
    requires Consistent(p) && i < |p.refunds| && p.refunds[i].status == Requested
    requires p.refunds[i].requestedBy != Some(actor.id)
    requires NeedsHighApproval(p, p.refunds[i].amount) ==> actor.mayApproveHigh
    ensures var signed := p.(refunds := p.refunds[i := p.refunds[i].(approvedBy := Some(actor))]);
            MoveRefund(signed, i, Approved).Ok? && Consistent(MoveRefund(signed, i, Approved).value)
  {
    hide BookAgrees, ChargebackAgrees, Allocate, Total;
    var r := p.refunds[i].(approvedBy := Some(actor));
    assert RefundAgrees(Effective(p), p.refunded, p.refunds[i]);
    RefundRewritten(p, i, r);
    MoveRefundKeeps(p.(refunds := p.refunds[i := r]), i, Approved);
  }

  /** Finance turns down exactly what waits for it; the refund is rejected and nothing else changes. */
  lemma RejectionCloses(p: Payment, i: nat, actor: Actor)
    requires i < |p.refunds|
    ensures var r := Apply(p, Rejection(i, actor));
            && (r.Ok? <==> actor.mayRefund && p.refunds[i].status == Requested)
            && (r.Ok? ==>
                  r.value == Outcome(p.(refunds := p.refunds[i := p.refunds[i].(status := Rejected)]), NoEffect))
  {
  }

  /**
   The provider's report of a refund moves the refund that has its id, or else the one it names; any other is a
   refund made outside: it is recorded with the amount reported, at most what is left, and absorbed by the platform.
   */
  lemma RefundReportFinds(p: Payment, report: RefundReport, i: nat)
    requires Consistent(p) && i < |p.refunds|
    requires (p.refunds[i].providerId == Some(report.id)
              && forall k :: 0 <= k < i ==> p.refunds[k].providerId != Some(report.id))
             || (report.refund == Some(i)
                 && forall k :: 0 <= k < |p.refunds| ==> p.refunds[k].providerId != Some(report.id))
    ensures Apply(p, RefundReported(report)) == ApplyRefundReportTo(p, i, report)
  {
    hide ApplyRefundReportTo, RecordOutside, Consistent;
    if p.refunds[i].providerId == Some(report.id) { FirstIs(p.refunds, report.id, i); }
  }

  lemma {:induction false} FirstIs(refunds: seq<Refund>, id: nat, i: nat)
    requires i < |refunds| && refunds[i].providerId == Some(id)
    requires forall k :: 0 <= k < i ==> refunds[k].providerId != Some(id)
    ensures FirstWithId(refunds, id) == i
    decreases |refunds|
  {
    if i == 0 {
    } else {
      forall k | 0 <= k < i - 1 ensures refunds[1..][k].providerId != Some(id) {
        assert refunds[k + 1] == refunds[1..][k];
      }
      FirstIs(refunds[1..], id, i - 1);
    }
  }

  lemma OutsideRefundRecorded(p: Payment, report: RefundReport)
    requires Consistent(p) && Refundable(p.status) && report.status in {RefundDone, RefundPending} && report.amount > 0
    requires report.refund.None? || report.refund.value >= |p.refunds|
    requires forall k :: 0 <= k < |p.refunds| ==> p.refunds[k].providerId != Some(report.id)
    ensures var r, left := Apply(p, RefundReported(report)), p.captured - p.refunded;
            && (r.Ok? <==>
                  forall k :: 0 <= k < |p.refunds| ==> p.refunds[k].status !in {Requested, Approved, InProcess})
            && (r.Ok? ==> var q, n := r.value.payment, |p.refunds|;
                          && |q.refunds| == n + 1 && q.refunds[..n] == p.refunds
                          && var added := q.refunds[n];
                          && added.amount == (if report.amount < left then report.amount else left)
                          && added.reason == OutsideApp && added.requestedBy.None? && added.source == FromOutside
                          && added.providerId == Some(report.id)
                          && added.status == (if report.status == RefundDone then Succeeded else InProcess)
                          && q.captured == p.captured
                          && q.refunded == p.refunded + if added.status == Succeeded then added.amount else 0)
  {
    hide Succeed, Consistent;
    var left := p.captured - p.refunded;
    var amount := if report.amount < left then report.amount else left;
    SomethingLeft(p);
    if forall k :: 0 <= k < |p.refunds| ==> p.refunds[k].status !in {Requested, Approved, InProcess} {
      var r := Refund(amount, OutsideApp, FromOutside, None, None, Approved, Some(report.id), NOT_ALLOCATED);
      var q := p.(refunds := p.refunds + [r]);
      OutsideAdded(p, r);
      RefundSucceeds(q, |p.refunds|);
      var done := Succeed(q, |p.refunds|).value.payment;
      assert done.refunds[..|p.refunds|] == p.refunds;
    } else {
      var k :| 0 <= k < |p.refunds| && p.refunds[k].status in {Requested, Approved, InProcess};
      assert p.refunds[k].Open();
    }
  }

  lemma SomethingLeft(p: Payment)
    requires Consistent(p) && Refundable(p.status)
    ensures p.refunded < p.captured
  {
    hide RefundsAgree, BookAgrees, ChargebackAgrees, RowAdmitted;
  }

  lemma OutsideAdded(p: Payment, r: Refund)
    requires Consistent(p) && Refundable(p.status) && r.Open() && r.requestedBy.None? && r.approvedBy.None?
    requires r.allocation == NOT_ALLOCATED && PolicyOf(r.reason).Some? && 0 < r.amount <= p.captured - p.refunded
    requires forall k :: 0 <= k < |p.refunds| ==> p.refunds[k].status !in {Requested, Approved, InProcess}
    ensures Consistent(p.(refunds := p.refunds + [r]))
  {
    hide RefundsAgree, BookAgrees, ChargebackAgrees, Allocate;
    assert !HasOpen(p.refunds);
    RefundAdded(p, r);
  }

  // ---------------------------------------------------------------------------
  // Who pays for a refund
  // ---------------------------------------------------------------------------

  /** What the capture credited an account, by the split of what was charged. */
  function PartOf(b: Breakdown, a: Account): int {
    match a
    case TechnicianPayable => b.technician
    case PlatformRevenue => b.commission
    case VatPayable => b.commissionTax
    case TaxWithheld => b.isr + b.iva
    case Customer => -b.Charge()
    case Refunds => 0
  }

  /** The reasons for which everybody gives back their part; for the others the platform pays all of it. */
  predicate SharedBack(reason: Reason) {
    reason in {ServiceNotProvided, ServiceDeficient, PriceAdjustment}
  }

  /**
   A refund that succeeds returns its amount to the customer. For a failed or cheaper service each account gives back
   the largest whole number of cents within its own proportion; for any other reason none does; the platform pays
   the rest.
   */
  lemma ReasonDecidesWhoPays(p: Payment, i: nat, a: Account)
    requires Consistent(p) && i < |p.refunds| && (p.refunds[i].status == Approved || p.refunds[i].status == InProcess)
    requires Refundable(p.status) || p.status == Disputed
    requires Credited(a)
    ensures var q := Succeed(p, i).value.payment;
            var r, back := p.refunds[i], Balance(p.ledger, a) - Balance(q.ledger, a);
            && Balance(q.ledger, Customer) == Balance(p.ledger, Customer) + r.amount
            && (if SharedBack(r.reason)
                then WithinShare(back, PartOf(Effective(p), a), r.amount, Effective(p).Charge())
                     && !WithinShare(back + 1, PartOf(Effective(p), a), r.amount, Effective(p).Charge())
                else back == 0)
  {
    hide Succeed, Consistent, Post, Allocate, WithinShare, Balance, Sum;
    SuccessPosted(p, i);
    var r, policy := p.refunds[i], PolicyOf(p.refunds[i].reason).value;
    var shares := Allocate(Effective(p), r.amount, policy);
    AllocationFair(Effective(p), r.amount, policy, a);
    Posts(p.ledger, RefundEntry, RefundLines(r.amount, shares), a);
    Posts(p.ledger, RefundEntry, RefundLines(r.amount, shares), Customer);
  }

  lemma SuccessPosted(p: Payment, i: nat)
    requires Consistent(p) && i < |p.refunds| && (p.refunds[i].status == Approved || p.refunds[i].status == InProcess)
    requires Refundable(p.status) || p.status == Disputed
    ensures PolicyOf(p.refunds[i].reason).Some? && Succeed(p, i).Ok?
    ensures var shares := Allocate(Effective(p), p.refunds[i].amount, PolicyOf(p.refunds[i].reason).value);
            Post(p.ledger, RefundEntry, RefundLines(p.refunds[i].amount, shares))
            == Ok(Succeed(p, i).value.payment.ledger)
  {
    hide Consistent, Allocate, Post;
    SucceedKeeps(p, i);
  }

  lemma Posts(book: seq<Entry>, kind: EntryKind, lines: Lines, a: Account)
    requires Post(book, kind, lines).Ok?
    ensures Balance(Post(book, kind, lines).value, a) == Balance(book, a) + lines.At(a)
  {
    var after := Post(book, kind, lines).value;
    BalanceByKind(book, a);
    BalanceByKind(after, a);
    forall k ensures Sum(after, k, a) == Sum(book, k, a) + if k == kind then lines.At(a) else 0 {
      PostMoves(book, kind, lines, k, a);
    }
    hide Post, Balance, Sum;
  }

  // ---------------------------------------------------------------------------
  // Disputes at the provider
  // ---------------------------------------------------------------------------

  /** The state that the amounts of a charged payment tell. */
  function Undisputed(p: Payment): PaymentStatus {
    if p.refunded == 0 then Paid else if p.refunded < p.captured then PartiallyRefunded else PaymentStatus.Refunded
  }

  function Least(x: int, y: int): int {
    if x < y then x else y
  }

  /** A dispute that ends well for the platform moves no money. */
  predicate EndedWon(p: Payment, q: Payment) {
    && q == p.(status := Undisputed(p), disputes := q.disputes)
  }

  /** One that is lost takes from what is left of the charge, up to `limit`, once. */
  ghost predicate EndedLost(p: Payment, q: Payment, limit: int, reversed: bool) {
    var lost, recovered := LostCents(q.ledger), RecoveredCents(q.ledger);
    && q == p.(status := ChargedBack, disputes := q.disputes, ledger := q.ledger)
    && p.ledger <= q.ledger && lost == Least(limit, p.captured - p.refunded)
    && (if reversed then WithinShare(recovered, Effective(p).technician, lost, Effective(p).Charge())
                         && !WithinShare(recovered + 1, Effective(p).technician, lost, Effective(p).Charge())
        else recovered == 0)
    && Balance(q.ledger, Customer) == Balance(p.ledger, Customer) + lost
    && Balance(q.ledger, Account.Refunds) == Balance(p.ledger, Account.Refunds) - (lost - recovered)
  }

  lemma WonEnds(p: Payment)
    requires Consistent(p) && p.status == Disputed
    ensures var r := DisputeWon(p);
            && r.Ok? && EndedWon(p, r.value.payment) && r.value.payment.disputes == p.disputes
            && r.value.effect == if p.refunded == p.captured then FullyRefunded else NoEffect
  {
    hide RefundsAgree, BookAgrees, ChargebackAgrees, RowAdmitted;
  }

  /** The rows of a lost dispute: only its own changes, by what was recovered. */
  predicate OnlyRecovered(before: seq<Dispute>, after: seq<Dispute>, dispute: Option<nat>) {
    && |after| == |before|
    && (forall k :: 0 <= k < |before| && dispute != Some(k) ==> after[k] == before[k])
    && (dispute.Some? && dispute.value < |before| ==>
          after[dispute.value] == before[dispute.value].(recovered := after[dispute.value].recovered))
  }

  lemma LostShape(p: Payment, dispute: Option<nat>, reversed: bool)
    requires p.status == Disputed && (dispute.Some? ==> dispute.value < |p.disputes|)
    requires ChargeBack(p, dispute, reversed).Ok?
    ensures var o := ChargeBack(p, dispute, reversed).value;
            && o.payment == p.(status := ChargedBack, disputes := o.payment.disputes, ledger := o.payment.ledger)
            && o.effect == NoEffect && OnlyRecovered(p.disputes, o.payment.disputes, dispute)
  {
    hide Post, Share;
  }

  lemma LostCustomer(p: Payment, q: Payment)
    requires Consistent(p) && Consistent(q) && p.status == Disputed
    requires q.captured == p.captured && q.refunded == p.refunded
    ensures LostCents(p.ledger) == 0
    ensures Balance(q.ledger, Customer) == Balance(p.ledger, Customer) + LostCents(q.ledger)
  {
    hide AmountsAgree, RefundsAgree, BookAgrees, WithinShare, Balance, Sum;
    ConsistentConserves(p);
    ConsistentConserves(q);
  }

  lemma LostEnds(p: Payment, dispute: Option<nat>, reversed: bool)
    requires Consistent(p) && p.status == Disputed && (dispute.Some? ==> dispute.value < |p.disputes|)
    ensures var r := ChargeBack(p, dispute, reversed);
            && r.Ok? && r.value.effect == NoEffect && OnlyRecovered(p.disputes, r.value.payment.disputes, dispute)
            && EndedLost(p, r.value.payment,
                   if dispute.Some? then p.disputes[dispute.value].amount else p.captured - p.refunded, reversed)
  {
    hide ChargeBack, Consistent, Sum, Balance, WithinShare, LostCents, RecoveredCents, OnlyRecovered;
    LostDisputeTakes(p, dispute, reversed);
    ChargeBackKeeps(p, dispute, reversed);
    LostShape(p, dispute, reversed);
    LostCustomer(p, ChargeBack(p, dispute, reversed).value.payment);
    ChargeBackContinues(p, dispute, reversed);
  }

  /** The row of a lost dispute says what the book says was taken back from the technician. */
  lemma RecoveredRecorded(p: Payment, k: nat, reversed: bool)
    requires Consistent(p) && p.status == Disputed && k < |p.disputes|
    requires 0 < p.disputes[k].amount && p.refunded < p.captured
    ensures var q := ChargeBack(p, Some(k), reversed).value.payment;
            k < |q.disputes| && q.disputes[k].recovered == RecoveredCents(q.ledger)
  {
    hide RefundsAgree, AmountsAgree, BookAgrees, Share, Post, WithinShare;
    ChargeBackKeeps(p, Some(k), reversed);
    NothingRecovered(p);
    var lost := Least(p.disputes[k].amount, p.captured - p.refunded);
    var share := Share(Effective(p).technician, lost, Effective(p).Charge());
    PostMoves(p.ledger, ChargebackEntry, ChargebackLines(lost, if share > 0 && reversed then share else 0),
        ChargebackEntry, TechnicianPayable);
  }

  lemma NothingRecovered(p: Payment)
    requires Consistent(p) && p.status == Disputed
    ensures RecoveredCents(p.ledger) == 0
  {
    hide RefundsAgree, AmountsAgree, BookAgrees, WithinShare;
  }

  /** The payment is in dispute once the report is stored: it was, or the report opens a dispute. */
  predicate Contested(p: Payment, report: DisputeReport) {
    || p.status == Disputed
    || (Refundable(p.status) && forall k :: 0 <= k < |p.disputes| ==> p.disputes[k].id != report.id)
  }

  /** The amount of a dispute is the one first reported, a cent at least. */
  function AmountInDispute(p: Payment, report: DisputeReport): nat {
    var k := FindDispute(p.disputes, report.id);
    if k < |p.disputes| then p.disputes[k].amount else if report.amount > 1 then report.amount else 1
  }

  /**
   What the provider reports of a dispute decides which way it ends: won, the payment goes back to what its refunds
   say and the book is not touched; lost, it is charged back up to the disputed amount; otherwise it stays in dispute
   with nothing posted. A payment that is not contested is left alone.
   */
  lemma DisputeReportSettles(p: Payment, report: DisputeReport, reversed: bool)
    requires Consistent(p)
    ensures var r := Apply(p, DisputeReported(report, reversed));
            && r.Ok?
            && (!Contested(p, report) ==>
                  r.value.payment == p.(disputes := r.value.payment.disputes) && r.value.effect == NoEffect)
            && (Contested(p, report) ==>
                  var q := r.value.payment;
                  && r.value.effect == (if report.status == Won && p.refunded == p.captured
                                        then FullyRefunded else NoEffect)
                  && match report.status
                     case Won => EndedWon(p, q)
                     case Lost => EndedLost(p, q, AmountInDispute(p, report), reversed)
                     case NeedsResponse | UnderReview => q == p.(status := Disputed, disputes := q.disputes))
  {
    hide Consistent, EndedLost, DisputeWon, ChargeBack, FindDispute;
    var k, stored := FindDispute(p.disputes, report.id), DisputeStored(p, report).value;
    if Contested(p, report) && report.status in {Won, Lost} {
      var q := stored.(disputes := stored.disputes[k := stored.disputes[k].(closed := true)]);
      StoredKeeps(p, report, q.disputes);
      WonEnds(q);
      LostEnds(q, Some(k), reversed);
      SameEnd(p, q, ChargeBack(q, Some(k), reversed).value.payment, AmountInDispute(p, report), reversed);
    }
  }

  lemma StoredKeeps(p: Payment, report: DisputeReport, disputes: seq<Dispute>)
    requires Consistent(p) && Contested(p, report)
    ensures DisputeStored(p, report).Ok? && DisputeStored(p, report).value.status == Disputed
    ensures Consistent(p.(status := Disputed, disputes := disputes))
  {
    hide RefundsAgree, BookAgrees, ChargebackAgrees, RowAdmitted;
    DisputesRewritten(p, disputes);
    if p.status != Disputed { DisputeMove(p.(disputes := disputes), Disputed); }
  }

  lemma SameEnd(p: Payment, q: Payment, after: Payment, limit: int, reversed: bool)
    requires q == p.(status := q.status, disputes := q.disputes) && EndedLost(q, after, limit, reversed)
    ensures EndedLost(p, after, limit, reversed)
  {
    hide LostCents, RecoveredCents, WithinShare;
  }

  /** A closing reported without its dispute settles the same way, for all that is left of the charge. */
  lemma DisputeEndSettles(p: Payment, won: bool, reversed: bool)
    requires Consistent(p)
    ensures var r := Apply(p, DisputeEnded(won, reversed));
            && r.Ok?
            && (p.status != Disputed ==> r.value == Outcome(p, NoEffect))
            && (p.status == Disputed ==>
                  var q := r.value.payment;
                  && q.disputes == p.disputes
                  && r.value.effect == (if won && p.refunded == p.captured then FullyRefunded else NoEffect)
                  && if won then EndedWon(p, q) else EndedLost(p, q, p.captured - p.refunded, reversed))
  {
    hide Consistent, EndedLost, DisputeWon, ChargeBack;
    if p.status == Disputed {
      WonEnds(p);
      LostEnds(p, None, reversed);
      NoneRecovered(p.disputes, ChargeBack(p, None, reversed).value.payment.disputes);
    } else {
      NotInDispute(p, reversed);
    }
  }

  lemma NoneRecovered(before: seq<Dispute>, after: seq<Dispute>)
    requires OnlyRecovered(before, after, None)
    ensures after == before
  {
  }

  lemma NotInDispute(p: Payment, reversed: bool)
    requires p.status != Disputed
    ensures DisputeWon(p) == Ok(Outcome(p, NoEffect)) && ChargeBack(p, None, reversed) == Ok(Outcome(p, NoEffect))
  {
  }

  /** Each report writes its own dispute row: its state, whether it closed the dispute, and what was recovered. */
  lemma DisputeRowWritten(p: Payment, report: DisputeReport, reversed: bool)
    requires Consistent(p)
    ensures var q, k := Step(p, DisputeReported(report, reversed)), FindDispute(p.disputes, report.id);
            && |q.disputes| == (if k < |p.disputes| then |p.disputes| else |p.disputes| + 1)
            && (forall j :: 0 <= j < |p.disputes| && j != k ==> q.disputes[j] == p.disputes[j])
            && q.disputes[k].id == report.id && q.disputes[k].status == report.status
            && q.disputes[k].amount == AmountInDispute(p, report)
            && q.disputes[k].closed == ((k < |p.disputes| && p.disputes[k].closed)
                                        || (Contested(p, report) && report.status in {Won, Lost}))
  {
    hide Consistent, EndedLost, DisputeWon, ChargeBack, FindDispute;
    var k, stored := FindDispute(p.disputes, report.id), DisputeStored(p, report).value;
    if Contested(p, report) && report.status in {Won, Lost} {
      var q := stored.(disputes := stored.disputes[k := stored.disputes[k].(closed := true)]);
      StoredKeeps(p, report, q.disputes);
      WonEnds(q);
      LostEnds(q, Some(k), reversed);
    }
  }
}
