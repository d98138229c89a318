/**
 One payment with everything stored about it: its breakdowns, refunds, disputes and ledger entries, and what
 each service call does to it. A call either commits a new payment or fails and leaves the payment as it was.
 */
module Payments {
  import opened Results
  import opened Commission
  import opened Ledger

  // ---------------------------------------------------------------------------
  // Data
  // ---------------------------------------------------------------------------

  datatype PaymentStatus =
    | Pending | RequiresAction | Processing | Authorized | Paid | PartiallyRefunded | Refunded
    | Disputed | ChargedBack | Failed | Cancelled

  /** The only pairs of states a payment may go through. */
  predicate MoveAllowed(before: PaymentStatus, after: PaymentStatus) {
    match before
    case Pending => after in {RequiresAction, Processing, Authorized, Failed, Cancelled}
    case RequiresAction => after in {Pending, Processing, Authorized, Failed, Cancelled}
    case Processing => after in {Authorized, Failed}
    case Authorized => after in {Paid, Cancelled, Failed}
    case Paid => after in {PartiallyRefunded, Refunded, Disputed}
    case PartiallyRefunded => after in {Refunded, Disputed}
    case Disputed => after in {Paid, PartiallyRefunded, ChargedBack, Refunded}
    case Refunded | ChargedBack | Failed | Cancelled => false
  }

  /** Nothing is charged yet and the service tries to void the reservation. */
  predicate Cancellable(s: PaymentStatus) {
    s in {Pending, RequiresAction, Processing, Authorized}
  }

  /** Counts for the one-active-payment-per-order index. */
  predicate Live(s: PaymentStatus) {
    s != Cancelled && s != Failed
  }

  predicate Refundable(s: PaymentStatus) {
    s == Paid || s == PartiallyRefunded
  }

  datatype RefundStatus = Requested | Approved | InProcess | Succeeded | RefundFailed | Rejected

  predicate RefundMoveAllowed(before: RefundStatus, after: RefundStatus) {
    match before
    case Requested => after == Approved || after == Rejected
    case Approved => after == InProcess || after == Succeeded || after == RefundFailed
    case InProcess => after == Succeeded || after == RefundFailed
    case Succeeded | RefundFailed | Rejected => false
  }

  datatype Policy = Policy(reverseTransfer: bool, refundFee: bool, clientMayRequest: bool)

  datatype Reason =
    | ServiceNotProvided | ServiceDeficient | PriceAdjustment | DuplicateCharge | PlatformError | Courtesy
    | OutsideApp | UnknownReason

  /** Who absorbs a refund is decided by its reason alone. */
  function PolicyOf(reason: Reason): Option<Policy> {
    match reason
    case ServiceNotProvided | ServiceDeficient => Some(Policy(true, true, true))
    case PriceAdjustment => Some(Policy(true, true, false))
    case DuplicateCharge => Some(Policy(false, false, true))
    case PlatformError | Courtesy | OutsideApp => Some(Policy(false, false, false))
    case UnknownReason => None
  }

  datatype Source = FromClient | FromFinance | FromDispute | FromOutside

  /** A person acting for finance, with the two refund permissions. */
  datatype Actor = Actor(id: nat, mayRefund: bool, mayApproveHigh: bool)

  datatype Allocation = Allocation(technician: int, commission: int, vat: int, withholding: int, platform: int)

  const NOT_ALLOCATED := Allocation(0, 0, 0, 0, 0)

  datatype Refund = Refund(
    amount: nat, reason: Reason, source: Source, requestedBy: Option<nat>, approvedBy: Option<Actor>,
    status: RefundStatus, providerId: Option<nat>, allocation: Allocation)
  {
    predicate Open() {
      status == Requested || status == Approved || status == InProcess
    }
  }

  datatype DisputeStatus = NeedsResponse | UnderReview | Won | Lost

  datatype Dispute = Dispute(id: nat, amount: nat, status: DisputeStatus, recovered: nat, closed: bool)

  datatype Payment = Payment(
    amount: nat, status: PaymentStatus, captured: nat, refunded: nat, providerId: Option<nat>,
    quote: Breakdown, partial: Option<Breakdown>,
    refunds: seq<Refund>, disputes: seq<Dispute>, ledger: seq<Entry>, voids: nat)

  /** What a call asks the order to do next. */
  datatype Effect =
    | NoEffect | CaptureConfirmed | PaymentDeclined | ReservationLost(before: PaymentStatus) | FullyRefunded

  datatype Outcome = Outcome(payment: Payment, effect: Effect)

  // Reports of the provider. An absent answer is an error of the provider or of the network.

  datatype Report = Report(status: PaymentStatus, providerId: Option<nat>, received: nat)

  datatype RefundAnswerStatus =
    | RefundDone | RefundPending | RefundNeedsAction | RefundRefused | RefundCanceled | RefundOther

  datatype RefundReport = RefundReport(id: nat, status: RefundAnswerStatus, amount: int, refund: Option<nat>)

  datatype RefundAnswer = Answered(report: RefundReport) | Unreachable | Declined

  datatype DisputeReport = DisputeReport(id: nat, amount: int, status: DisputeStatus)

  // ---------------------------------------------------------------------------
  // States, breakdowns and captures
  // ---------------------------------------------------------------------------

  function NewPayment(quote: Breakdown): Payment {
    Payment(quote.Charge(), Pending, 0, 0, None, quote, None, [], [], [], 0)
  }

  function Move(p: Payment, to: PaymentStatus): Result<Payment> {
    if p.status == to then Ok(p)
    else if MoveAllowed(p.status, to) then Ok(p.(status := to))
    else Err(InvalidTransition)
  }

  /** The breakdown of what is really charged: the partial capture's, if there was one. */
  function Effective(p: Payment): Breakdown {
    if p.partial.Some? then p.partial.value else p.quote
  }

  function CaptureLines(b: Breakdown): Lines {
    Lines(-b.Charge(), b.technician, b.commission, b.commissionTax, b.Withheld(), 0)
  }

  /** The breakdown rebuilt for an amount that is not the expected one; none when it cannot be explained. */
  function Rebuilt(p: Payment, received: nat): (b: Option<Breakdown>)
    ensures b.Some? ==> p.partial.None? && b.value.Charge() == received < p.amount
  {
    if p.partial.None? && 0 < received < p.amount then
      var taxes := p.quote.taxes;
      var r := Compute(PriceForCharge(received, taxes.serviceBp), p.quote.terms, taxes);
      if r.Ok? && r.value.Charge() == received then Some(r.value) else None
    else None
  }

  /** The partial breakdown a capture of `received` cents settles on. */
  function Settled(p: Payment, received: nat): Option<Breakdown> {
    if received != 0 && received != Effective(p).Charge() && Rebuilt(p, received).Some? then Rebuilt(p, received)
    else p.partial
  }

  /** The charge is confirmed and the frozen split is posted. */
  function CaptureWith(p: Payment, partial: Option<Breakdown>): Result<Payment> {
    if p.status == Paid then Ok(p)
    else if !MoveAllowed(p.status, Paid) then Err(InvalidTransition)
    else
      var effective := Effective(p.(partial := partial));
      var book := Post(p.ledger, CaptureEntry, CaptureLines(effective));
      if book.Err? then Err(book.error)
      else Ok(p.(status := Paid, partial := partial, captured := effective.Charge(), ledger := book.value))
  }

  function MarkCaptured(p: Payment, received: nat): Result<Payment> {
    CaptureWith(p, Settled(p, received))
  }

  /** Applies what the provider reports; a report that would go backwards is ignored. */
  function ApplyReport(p: Payment, report: Report): Result<Outcome> {
    var q := if p.providerId.None? then p.(providerId := report.providerId) else p;
    var before, target := p.status, report.status;
    if target == before then Ok(Outcome(q, NoEffect))
    else if target == Authorized && before in {Pending, RequiresAction, Processing} then
      Then(Move(q, Authorized), NoEffect)
    else if target == Paid && before in {Pending, RequiresAction, Processing, Authorized} then
      var authorized := Move(q, Authorized);
      if authorized.Err? then Err(authorized.error)
      else Then(MarkCaptured(authorized.value, report.received), CaptureConfirmed)
    else if target == RequiresAction && before == Pending then Then(Move(q, RequiresAction), NoEffect)
    else if target == Processing && before in {Pending, RequiresAction} then Then(Move(q, Processing), NoEffect)
    else if target == Failed && Cancellable(before) then Then(Move(q, Failed), PaymentDeclined)
    else if target == Cancelled && Cancellable(before) then Then(Move(q, Cancelled), ReservationLost(before))
    else if target == Authorized && !Live(before) && q.providerId.Some? then
      Ok(Outcome(if q.voids > 0 then q else q.(voids := q.voids + 1), NoEffect))
    else Ok(Outcome(q, NoEffect))
  }

  function Then(r: Result<Payment>, effect: Effect): Result<Outcome> {
    if r.Ok? then Ok(Outcome(r.value, effect)) else Err(r.error)
  }

  /** Voids the reservation; a provider that does not answer leaves the void queued. */
  function Cancel(p: Payment, voided: bool): Result<Payment> {
    if !Cancellable(p.status) then Ok(p)
    else
      var moved := Move(p, Cancelled);
      if moved.Ok? && p.providerId.Some? && !voided then Ok(moved.value.(voids := p.voids + 1)) else moved
  }

  function CaptureAll(p: Payment, answer: Option<Report>): Result<Outcome> {
    if p.status != Authorized || p.providerId.None? then Ok(Outcome(p, NoEffect))
    else if answer.None? then Err(ProviderUnavailable)
    else ApplyReport(p, answer.value)
  }

  /** The payment once the breakdown of a partial capture is stored, before the provider is called. */
  function PartialStored(p: Payment, b: Breakdown): Result<Payment> {
    if p.partial.Some? then Err(ConstraintViolation) else Ok(p.(partial := Some(b)))
  }

  function TermsOr(terms: Option<RuleTerms>, p: Payment): RuleTerms {
    if terms.Some? then terms.value else p.quote.terms
  }

  function CapturePart(p: Payment, price: int, terms: Option<RuleTerms>, answer: Option<Report>): Result<Outcome> {
    if p.status != Authorized || p.providerId.None? then Err(InvalidTransition)
    else
      var b := Compute(price, TermsOr(terms, p), p.quote.taxes);
      if b.Err? then Err(b.error)
      else if b.value.Charge() >= p.amount then CaptureAll(p, answer)
      else
        var stored := PartialStored(p, b.value);
        if stored.Err? then Err(stored.error)
        else if answer.None? then Err(ProviderUnavailable)
        else ApplyReport(stored.value, answer.value)
  }

  /**
   The visit fee of a cancellation on site. When it cannot be captured the reservation is voided instead,
   and a breakdown that was already stored stays.
   */
  function CaptureVisitFee(p: Payment, fee: int, terms: RuleTerms, answer: Option<Report>,
      voided: bool): Result<Outcome> {
    if p.status != Authorized || p.providerId.None? then Err(InvalidTransition)
    else
      var b := Compute(fee, terms, p.quote.taxes);
      if b.Err? then Then(Cancel(p, voided), NoEffect)
      else if answer.Some? then CapturePart(p, fee, Some(terms), answer)
      else if b.value.Charge() >= p.amount then Then(Cancel(p, voided), NoEffect)
      else
        var stored := PartialStored(p, b.value);
        if stored.Err? then Err(stored.error) else Then(Cancel(stored.value, voided), NoEffect)
  }

  // ---------------------------------------------------------------------------
  // Refunds
  // ---------------------------------------------------------------------------

  /**
   Above this cumulative amount a refund needs a second signature with the high permission. It is a setting, and
   has no value here: every proof holds for all values.
   */
  const HIGH_REFUND_CENTS: nat

  predicate HasOpen(refunds: seq<Refund>) {
    exists i :: 0 <= i < |refunds| && refunds[i].Open()
  }

  function OpenCents(refunds: seq<Refund>): nat {
    if refunds == [] then 0
    else
      var last := refunds[|refunds| - 1];
      OpenCents(refunds[..|refunds| - 1]) + if last.Open() then last.amount else 0
  }

  function RefundableCents(p: Payment): int {
    p.captured - p.refunded - OpenCents(p.refunds)
  }

  predicate NeedsHighApproval(p: Payment, amount: nat) {
    p.refunded + amount > HIGH_REFUND_CENTS
  }

  function Share(part: nat, amount: nat, charged: nat): nat
    requires charged > 0
  {
    part * amount / charged
  }

  /** Proportional to what was charged, rounded down in each part; the platform absorbs the rest. */
  function Allocate(b: Breakdown, amount: nat, policy: Policy): Allocation {
    var charged := b.Charge();
    var technician := if policy.reverseTransfer then Share(b.technician, amount, charged) else 0;
    var commission := if policy.refundFee then Share(b.commission, amount, charged) else 0;
    var vat := if policy.refundFee then Share(b.commissionTax, amount, charged) else 0;
    var withholding := if policy.refundFee then Share(b.Withheld(), amount, charged) else 0;
    Allocation(technician, commission, vat, withholding, amount - technician - commission - vat - withholding)
  }

  function RefundLines(amount: nat, a: Allocation): Lines {
    Lines(amount, -a.technician, -a.commission, -a.vat, -a.withholding, -a.platform)
  }

  function Requests(p: Payment, amount: Option<int>, reason: Reason, source: Source,
      requestedBy: Option<nat>): Result<Payment> {
    if PolicyOf(reason).None? then Err(InvalidReason)
    else if !Refundable(p.status) then Err(NotRefundable)
    else if HasOpen(p.refunds) then Err(AlreadyOpen)
    else
      var available := RefundableCents(p);
      var cents := if amount.None? then available else amount.value;
      if !(0 < cents <= available) then Err(ExceedsCaptured)
      else
        var added := Refund(cents, reason, source, requestedBy, None, Requested, None, NOT_ALLOCATED);
        Ok(p.(refunds := p.refunds + [added]))
  }

  function RequestByClient(p: Payment, client: nat, amount: Option<int>, reason: Reason): Result<Outcome> {
    if PolicyOf(reason).None? || !PolicyOf(reason).value.clientMayRequest then Err(InvalidReason)
    else Then(Requests(p, amount, reason, FromClient, Some(client)), NoEffect)
  }

  function MoveRefund(p: Payment, i: nat, to: RefundStatus): Result<Payment>
    requires i < |p.refunds|
  {
    if p.refunds[i].status == to then Ok(p)
    else if RefundMoveAllowed(p.refunds[i].status, to) then
      Ok(p.(refunds := p.refunds[i := p.refunds[i].(status := to)]))
    else Err(InvalidTransition)
  }

  /** The refund is confirmed: its shares are fixed, posted and counted. */
  function Succeed(p: Payment, i: nat): Result<Outcome>
    requires i < |p.refunds|
  {
    var r := p.refunds[i];
    if PolicyOf(r.reason).None? then Err(InvalidReason)
    else
      var allocation := Allocate(Effective(p), r.amount, PolicyOf(r.reason).value);
      var signed := MoveRefund(p.(refunds := p.refunds[i := r.(allocation := allocation)]), i, Succeeded);
      if signed.Err? then Err(signed.error)
      else
        var total := p.refunded + r.amount;
        var full := total >= p.captured;
        var moved := if p.status == Disputed then signed
            else Move(signed.value, if full then Refunded else PartiallyRefunded);
        if moved.Err? then Err(moved.error)
        else
          var book := Post(p.ledger, RefundEntry, RefundLines(r.amount, allocation));
          if book.Err? then Err(book.error)
          else Ok(Outcome(moved.value.(refunded := if full then p.captured else total, ledger := book.value),
                          if full then FullyRefunded else NoEffect))
  }

  predicate ProviderIdTaken(refunds: seq<Refund>, i: nat, id: nat) {
    exists k :: 0 <= k < |refunds| && k != i && refunds[k].providerId == Some(id)
  }

  /** The refund a report speaks of: by the provider's id, else by the id we sent along. */
  function Find(refunds: seq<Refund>, report: RefundReport): (found: Option<nat>)
    ensures found.Some? ==> found.value < |refunds|
  {
    if exists k :: 0 <= k < |refunds| && refunds[k].providerId == Some(report.id) then
      Some(FirstWithId(refunds, report.id))
    else if report.refund.Some? && report.refund.value < |refunds| then report.refund
    else None
  }

  function FirstWithId(refunds: seq<Refund>, id: nat): (k: nat)
    requires exists k :: 0 <= k < |refunds| && refunds[k].providerId == Some(id)
    ensures k < |refunds| && refunds[k].providerId == Some(id)
  {
    if refunds[0].providerId == Some(id) then 0
    else
      assert exists k :: 0 <= k < |refunds[1..]| && refunds[1..][k].providerId == Some(id) by {
        var k :| 0 <= k < |refunds| && refunds[k].providerId == Some(id);
        assert refunds[1..][k - 1].providerId == Some(id);
      }
      1 + FirstWithId(refunds[1..], id)
  }

  function ApplyRefundReportTo(p: Payment, i: nat, report: RefundReport): Result<Outcome>
    requires i < |p.refunds|
  {
    var r := p.refunds[i];
    if r.providerId.None? && ProviderIdTaken(p.refunds, i, report.id) then Err(ConstraintViolation)
    else
      var q := if r.providerId.None? then p.(refunds := p.refunds[i := r.(providerId := Some(report.id))]) else p;
      if report.status == RefundDone && r.status in {Approved, InProcess} then Succeed(q, i)
      else if report.status in {RefundRefused, RefundCanceled} && r.status in {Approved, InProcess} then
        Then(MoveRefund(q, i, RefundFailed), NoEffect)
      else if report.status in {RefundPending, RefundNeedsAction} && r.status == Approved then
        Then(MoveRefund(q, i, InProcess), NoEffect)
      else Ok(Outcome(q, NoEffect))
  }

  /** A refund made at the provider, not asked for here: recorded, and absorbed by the platform. */
  function RecordOutside(p: Payment, report: RefundReport): Result<Outcome> {
    if !Refundable(p.status) || report.status !in {RefundDone, RefundPending} then Ok(Outcome(p, NoEffect))
    else
      var left := p.captured - p.refunded;
      var amount := if report.amount < left then report.amount else left;
      if amount <= 0 then Ok(Outcome(p, NoEffect))
      else if HasOpen(p.refunds) then Err(ConstraintViolation)
      else
        var r := Refund(amount, OutsideApp, FromOutside, None, None, Approved, Some(report.id), NOT_ALLOCATED);
        var q := p.(refunds := p.refunds + [r]);
        if report.status == RefundDone then Succeed(q, |p.refunds|)
            else Then(MoveRefund(q, |p.refunds|, InProcess), NoEffect)
  }

  function ApplyRefundReport(p: Payment, report: RefundReport): Result<Outcome> {
    var found := Find(p.refunds, report);
    if found.Some? then ApplyRefundReportTo(p, found.value, report) else RecordOutside(p, report)
  }

  /** Sends an approved refund to the provider; without an answer it stays approved for a retry. */
  function Execute(p: Payment, i: nat, answer: RefundAnswer): Result<Outcome>
    requires i < |p.refunds|
  {
    if p.refunds[i].status != Approved then Ok(Outcome(p, NoEffect))
    else if !Refundable(p.status) then Then(MoveRefund(p, i, RefundFailed), NoEffect)
    else match answer
      case Unreachable => Ok(Outcome(p, NoEffect))
      case Declined => Then(MoveRefund(p, i, RefundFailed), NoEffect)
      case Answered(report) => ApplyRefundReportTo(p, i, report)
  }

  function CreateByFinance(p: Payment, actor: Actor, amount: Option<int>, reason: Reason, source: Source,
      answer: RefundAnswer): Result<Outcome> {
    if !actor.mayRefund then Err(Forbidden)
    else
      var created := Requests(p, amount, reason, source, Some(actor.id));
      if created.Err? then Err(created.error)
      else
        var q, i := created.value, |p.refunds|;
        if NeedsHighApproval(p, q.refunds[i].amount) then Ok(Outcome(q, NoEffect))
        else
          var approved := MoveRefund(q, i, Approved);
          if approved.Err? then Err(approved.error) else Execute(approved.value, i, answer)
  }

  function Approve(p: Payment, i: nat, actor: Actor, answer: RefundAnswer): Result<Outcome> {
    if !actor.mayRefund then Err(Forbidden)
    else if i >= |p.refunds| then Err(NotFound)
    else if p.refunds[i].status != Requested then Err(NotPending)
    else if p.refunds[i].requestedBy == Some(actor.id) then Err(FourEyes)
    else if NeedsHighApproval(p, p.refunds[i].amount) && !actor.mayApproveHigh then Err(Forbidden)
    else if !Refundable(p.status) then Err(NotRefundable)
    else
      var signed := p.(refunds := p.refunds[i := p.refunds[i].(approvedBy := Some(actor))]);
      var approved := MoveRefund(signed, i, Approved);
      if approved.Err? then Err(approved.error) else Execute(approved.value, i, answer)
  }

  function Reject(p: Payment, i: nat, actor: Actor): Result<Outcome> {
    if !actor.mayRefund then Err(Forbidden)
    else if i >= |p.refunds| then Err(NotFound)
    else if p.refunds[i].status != Requested then Err(NotPending)
    else Then(MoveRefund(p, i, Rejected), NoEffect)
  }

  // ---------------------------------------------------------------------------
  // Disputes
  // ---------------------------------------------------------------------------

  function ChargebackLines(lost: int, recovered: int): Lines {
    Lines(lost, -recovered, 0, 0, 0, -(lost - recovered))
  }

  /** A lost dispute: the technician's share is taken back if the provider can, and the platform absorbs the rest. */
  function ChargeBack(p: Payment, dispute: Option<nat>, reversed: bool): Result<Outcome>
    requires dispute.Some? ==> dispute.value < |p.disputes|
  {
    if p.status != Disputed then Ok(Outcome(p, NoEffect))
    else
      var open := p.captured - p.refunded;
      var lost :=
        if dispute.Some? && p.disputes[dispute.value].amount < open then p.disputes[dispute.value].amount else open;
      var q := p.(status := ChargedBack);
      if lost <= 0 then Ok(Outcome(q, NoEffect))
      else
        var share := Share(Effective(p).technician, lost, Effective(p).Charge());
        var recovered := if share > 0 && reversed then share else 0;
        var disputes := if dispute.Some?
                        then p.disputes[dispute.value := p.disputes[dispute.value].(recovered := recovered)]
                        else p.disputes;
        var book := Post(p.ledger, ChargebackEntry, ChargebackLines(lost, recovered));
        if book.Err? then Err(book.error) else Ok(Outcome(q.(disputes := disputes, ledger := book.value), NoEffect))
  }

  /** A won dispute puts the payment back where its refunds say. */
  function DisputeWon(p: Payment): Result<Outcome> {
    if p.status != Disputed then Ok(Outcome(p, NoEffect))
    else if p.refunded >= p.captured > 0 then Then(Move(p, Refunded), FullyRefunded)
    else Then(Move(p, if p.refunded > 0 then PartiallyRefunded else Paid), NoEffect)
  }

  function FindDispute(disputes: seq<Dispute>, id: nat): (k: nat)
    ensures k <= |disputes| && (k < |disputes| ==> disputes[k].id == id)
    ensures k == |disputes| <==> forall j :: 0 <= j < |disputes| ==> disputes[j].id != id
  {
    if disputes == [] then 0
    else if disputes[0].id == id then 0
    else
      var k := FindDispute(disputes[1..], id);
      assert forall j :: 0 < j < |disputes| ==> disputes[j] == disputes[1..][j - 1];
      1 + k
  }

  /** The dispute row as reported: a new one opens a dispute on a charged payment. */
  function DisputeStored(p: Payment, report: DisputeReport): Result<Payment> {
    var k := FindDispute(p.disputes, report.id);
    if k < |p.disputes| then
      Ok(p.(disputes := p.disputes[k := p.disputes[k].(status := report.status)]))
    else
      var amount := if report.amount > 1 then report.amount else 1;
      var q := p.(disputes := p.disputes + [Dispute(report.id, amount, report.status, 0, false)]);
      if Refundable(p.status) then Move(q, Disputed) else Ok(q)
  }

  function SyncDispute(p: Payment, report: DisputeReport, reversed: bool): Result<Outcome> {
    var k := FindDispute(p.disputes, report.id);
    var stored := DisputeStored(p, report);
    if stored.Err? then Err(stored.error)
    else if report.status in {Won, Lost} && stored.value.status == Disputed then
      var q := stored.value.(disputes := stored.value.disputes[k := stored.value.disputes[k].(closed := true)]);
      if report.status == Won then DisputeWon(q) else ChargeBack(q, Some(k), reversed)
    else Ok(Outcome(stored.value, NoEffect))
  }

  function CloseDispute(p: Payment, won: bool, reversed: bool): Result<Outcome> {
    if won then DisputeWon(p) else ChargeBack(p, None, reversed)
  }

  // ---------------------------------------------------------------------------
  // Runs
  // ---------------------------------------------------------------------------

  datatype Event =
    | Reported(report: Report)
    | FullCapture(answer: Option<Report>)
    | PartCapture(price: int, terms: Option<RuleTerms>, answer: Option<Report>)
    | VisitFee(fee: int, visitTerms: RuleTerms, answer: Option<Report>, voided: bool)
    | Cancellation(voided: bool)
    | ClientRequest(client: nat, cents: Option<int>, reason: Reason)
    | FinanceRefund(actor: Actor, cents: Option<int>, reason: Reason, source: Source, result: RefundAnswer)
    | Approval(refund: nat, actor: Actor, result: RefundAnswer)
    | Rejection(refund: nat, actor: Actor)
    | RefundReported(refundReport: RefundReport)
    | Retry(refund: nat, result: RefundAnswer)
    | DisputeReported(disputeReport: DisputeReport, reversed: bool)
    | DisputeEnded(won: bool, reversed: bool)
    | VoidProcessed

  function Apply(p: Payment, e: Event): Result<Outcome> {
    match e
    case Reported(report) => ApplyReport(p, report)
    case FullCapture(answer) => CaptureAll(p, answer)
    case PartCapture(price, terms, answer) => CapturePart(p, price, terms, answer)
    case VisitFee(fee, terms, answer, voided) => CaptureVisitFee(p, fee, terms, answer, voided)
    case Cancellation(voided) => Then(Cancel(p, voided), NoEffect)
    case ClientRequest(client, cents, reason) => RequestByClient(p, client, cents, reason)
    case FinanceRefund(actor, cents, reason, source, result) => CreateByFinance(p, actor, cents, reason, source, result)
    case Approval(i, actor, result) => Approve(p, i, actor, result)
    case Rejection(i, actor) => Reject(p, i, actor)
    case RefundReported(report) => ApplyRefundReport(p, report)
    case Retry(i, result) => if i < |p.refunds| then Execute(p, i, result) else Err(NotFound)
    case DisputeReported(report, reversed) => SyncDispute(p, report, reversed)
    case DisputeEnded(won, reversed) => CloseDispute(p, won, reversed)
    case VoidProcessed => Ok(Outcome(p.(voids := 0), NoEffect))
  }

  /** One atomic step: the call commits, or nothing happened. */
  function Step(p: Payment, e: Event): Payment {
    var r := Apply(p, e);
    if r.Ok? then r.value.payment else p
  }

  function Run(p: Payment, events: seq<Event>): Payment
    decreases |events|
  {
    if events == [] then p else Run(Step(p, events[0]), events[1..])
  }
}
