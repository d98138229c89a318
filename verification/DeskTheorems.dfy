/** What holds of an order and its payments over every run of use cases and provider reports. */
module DeskTheorems {
  import opened Results
  import opened Commission
  import opened Ledger
  import O = Orders
  import P = Payments
  import I = PaymentInvariants
  import T = PaymentTheorems
  import opened Desk

  ghost predicate AtMostOneLive(payments: seq<P.Payment>) {
    forall i, j :: 0 <= i < j < |payments| ==> !(P.Live(payments[i].status) && P.Live(payments[j].status))
  }

  ghost predicate PaymentsSound(payments: seq<P.Payment>) {
    AtMostOneLive(payments) && forall i :: 0 <= i < |payments| ==> I.Consistent(payments[i])
  }

  /** The provider charged this payment: its capture is in the book. */
  predicate Charged(p: P.Payment) {
    Captures(p.ledger) > 0
  }

  predicate SomeCharged(payments: seq<P.Payment>) {
    exists i :: 0 <= i < |payments| && Charged(payments[i])
  }

  ghost predicate Sound(d: Desk) {
    PaymentsSound(d.payments) && O.Assigned(d.order) && (d.order.reviewed ==> SomeCharged(d.payments))
  }

  /** No payment is ever removed, and each goes on as its own rules say. */
  ghost predicate Onward(before: seq<P.Payment>, after: seq<P.Payment>) {
    |before| <= |after| && forall i :: 0 <= i < |before| ==> T.Continues(before[i], after[i])
  }

  lemma {:induction false} CapturesGrow(before: seq<Entry>, after: seq<Entry>)
    requires before <= after
    ensures Captures(before) <= Captures(after)
    decreases |after|
  {
    if before != after { CapturesGrow(before, after[..|after| - 1]); }
  }

  lemma ChargedStays(before: seq<P.Payment>, after: seq<P.Payment>)
    requires Onward(before, after) && SomeCharged(before)
    ensures SomeCharged(after)
  {
    hide Captures;
    var i :| 0 <= i < |before| && Charged(before[i]);
    assert T.Continues(before[i], after[i]);
    CapturesGrow(before[i].ledger, after[i].ledger);
  }

  lemma OnwardTrans(a: seq<P.Payment>, b: seq<P.Payment>, c: seq<P.Payment>)
    requires Onward(a, b) && Onward(b, c)
    ensures Onward(a, c)
  {
    forall i | 0 <= i < |a| ensures T.Continues(a[i], c[i]) {
      assert T.Continues(a[i], b[i]) && T.Continues(b[i], c[i]);
    }
  }

  /** One payment changes by one of its own calls. */
  lemma PaymentSteps(payments: seq<P.Payment>, i: nat, e: P.Event)
    requires PaymentsSound(payments) && i < |payments|
    ensures var after := payments[i := P.Step(payments[i], e)];
            PaymentsSound(after) && Onward(payments, after)
  {
    hide I.Consistent, P.Step;
    I.StepKeeps(payments[i], e);
    T.StepContinues(payments[i], e);
    forall k | 0 <= k < |payments| ensures T.Continues(payments[k], payments[i := P.Step(payments[i], e)][k]) {}
  }

  /** A payment that dies leaves no other alive. */
  lemma NoneLiveAfter(payments: seq<P.Payment>, i: nat, q: P.Payment)
    requires AtMostOneLive(payments) && i < |payments| && P.Live(payments[i].status) && !P.Live(q.status)
    ensures Active(payments[i := q]).None?
  {
    var after := payments[i := q];
    forall k | 0 <= k < |after| ensures !P.Live(after[k].status) {}
  }

  predicate Mild(r: Result<P.Outcome>) {
    r.Ok? ==> r.value.effect.NoEffect? || r.value.effect.FullyRefunded?
  }

  lemma RefundEffects(p: P.Payment, i: nat, report: P.RefundReport)
    ensures i < |p.refunds| ==> Mild(P.ApplyRefundReportTo(p, i, report))
    ensures Mild(P.RecordOutside(p, report))
  {
    hide P.Share, Post, P.MoveRefund, P.Effective, P.PolicyOf, P.Allocate;
  }

  lemma ReportEffects(p: P.Payment, report: P.Report)
    ensures var r := P.ApplyReport(p, report);
            r.Ok? && (r.value.effect.PaymentDeclined? || r.value.effect.ReservationLost?) ==>
              P.Live(p.status) && !P.Live(r.value.payment.status)
  {
    hide P.MarkCaptured;
  }

  /** A call that declines or loses a reservation killed a live payment. */
  lemma EffectTells(p: P.Payment, e: P.Event)
    requires P.Apply(p, e).Ok?
    ensures var o := P.Apply(p, e).value;
            o.effect.PaymentDeclined? || o.effect.ReservationLost? ==> P.Live(p.status) && !P.Live(o.payment.status)
  {
    hide P.ApplyReport, P.ApplyRefundReportTo, P.RecordOutside, P.Find, P.OpenCents, P.PolicyOf, Compute,
        P.FindDispute, P.Share, Post;
    match e {
      case Reported(report) => ReportEffects(p, report);
      case FullCapture(answer) => if answer.Some? { ReportEffects(p, answer.value); }
      case PartCapture(price, terms, answer) => PartCaptureEffects(p, price, terms, answer);
      case VisitFee(fee, terms, answer, _) => PartCaptureEffects(p, fee, Some(terms), answer);
      case FinanceRefund(actor, cents, reason, source, result) =>
        if result.Answered? && actor.mayRefund && P.Requests(p, cents, reason, source, Some(actor.id)).Ok? {
          var created := P.Requests(p, cents, reason, source, Some(actor.id)).value;
          var approved := P.MoveRefund(created, |p.refunds|, P.Approved);
          if approved.Ok? { RefundEffects(approved.value, |p.refunds|, result.report); }
        }
      case Approval(i, actor, result) =>
        if result.Answered? && i < |p.refunds| {
          var signed := p.(refunds := p.refunds[i := p.refunds[i].(approvedBy := Some(actor))]);
          var approved := P.MoveRefund(signed, i, P.Approved);
          if approved.Ok? { RefundEffects(approved.value, i, result.report); }
        }
      case RefundReported(report) =>
        var found := P.Find(p.refunds, report);
        RefundEffects(p, if found.Some? then found.value else 0, report);
      case Retry(i, result) => if result.Answered? { RefundEffects(p, i, result.report); }
      case Cancellation(_) | ClientRequest(_, _, _) | Rejection(_, _) | DisputeReported(_, _) | DisputeEnded(_, _)
        | VoidProcessed =>
    }
  }

  lemma PartCaptureEffects(p: P.Payment, price: int, terms: Option<RuleTerms>, answer: Option<P.Report>)
    ensures var r := P.CapturePart(p, price, terms, answer);
            r.Ok? && (r.value.effect.PaymentDeclined? || r.value.effect.ReservationLost?) ==>
              P.Live(p.status) && !P.Live(r.value.payment.status)
  {
    hide P.ApplyReport, Compute;
    if answer.Some? {
      ReportEffects(p, answer.value);
      var b := Compute(price, P.TermsOr(terms, p), p.quote.taxes);
      if b.Ok? { ReportEffects(p.(partial := Some(b.value)), answer.value); }
    }
  }

  // ---------------------------------------------------------------------------
  // Each use case
  // ---------------------------------------------------------------------------

  /** What one use case must do: keep the desk sound, and only move its payments forward. */
  ghost predicate Good(d: Desk, r: Result<Desk>) {
    r.Ok? ==> Sound(r.value) && Onward(d.payments, r.value.payments)
  }

  /** Moves of the order leave the payments alone. */
  lemma OrderMoves(d: Desk, to: O.OrderStatus, actor: O.Actor, expected: Option<nat>)
    requires Sound(d)
    ensures Good(d, MoveOrder(d, to, actor, expected))
    ensures var r := MoveOrder(d, to, actor, expected); r.Ok? ==> r.value.payments == d.payments
  {
    hide O.AllowedTo, O.Caps, PaymentsSound;
    Still(d.payments);
    O.TransitionKeepsAssigned(d.order, to, actor, expected);
  }

  lemma Still(payments: seq<P.Payment>)
    ensures Onward(payments, payments)
  {
  }

  lemma CapturedGood(d: Desk)
    requires Sound(d)
    ensures Good(d, Captured(d))
  {
    hide Sound, O.Transition;
    Still(d.payments);
    OrderMoves(d, O.Paid, O.Job, None);
    var paid := MoveOrder(d, O.Paid, O.Job);
    if paid.Ok? { OrderMoves(paid.value, O.ReadyForReview, O.Job, None); }
  }

  /** A new payment keeps the desk sound whenever the index admits it. */
  lemma AddedGood(d: Desk, quote: Breakdown, departed: bool)
    requires Sound(d) && Active(d.payments).None?
    ensures AddPayment(d, quote).Ok?
    ensures var r := AddPayment(d, quote).value; Good(d, Ok(r.(order := r.order.(departed := departed))))
  {
    hide I.Consistent, Captures;
    I.NewPaymentConsistent(quote);
    var after := d.payments + [P.NewPayment(quote)];
    assert Onward(d.payments, after);
    if SomeCharged(d.payments) { ChargedStays(d.payments, after); }
  }

  lemma AfterPaymentGood(d: Desk, effect: P.Effect, quote: Breakdown)
    requires Sound(d)
    requires effect.PaymentDeclined? || effect.ReservationLost? ==> Active(d.payments).None?
    ensures Good(d, AfterPayment(d, effect, quote))
    ensures (effect.PaymentDeclined? || effect.ReservationLost?) && d.order.status == O.Scheduled ==>
              AfterPayment(d, effect, quote).Ok?
  {
    hide Sound, O.Transition, AddPayment;
    Still(d.payments);
    match effect {
      case NoEffect =>
      case CaptureConfirmed => CapturedGood(d);
      case PaymentDeclined => AddedOrFailed(d, quote);
      case ReservationLost(_) => AddedOrFailed(d, quote);
      case FullyRefunded => OrderMoves(d, O.Refunded, O.Job, None);
    }
  }

  lemma AddedOrFailed(d: Desk, quote: Breakdown)
    requires Sound(d) && Active(d.payments).None?
    ensures Replaced(d, quote).Ok? && Good(d, Replaced(d, quote)) && Good(d, MoveOrder(d, O.Failed, O.Job))
  {
    hide Sound, O.Transition, AddPayment;
    AddedGood(d, quote, false);
    OrderMoves(d, O.Failed, O.Job, None);
  }

  lemma OnPaymentGood(d: Desk, i: nat, e: P.Event)
    requires Sound(d)
    ensures Good(d, OnPayment(d, i, e))
  {
    hide PaymentsSound, P.Apply, AfterPayment, Captures;
    if i < |d.payments| && P.Apply(d.payments[i], e).Ok? {
      var o := P.Apply(d.payments[i], e).value;
      var moved := d.(payments := d.payments[i := o.payment]);
      PaymentSteps(d.payments, i, e);
      if SomeCharged(d.payments) { ChargedStays(d.payments, moved.payments); }
      EffectTells(d.payments[i], e);
      if o.effect.PaymentDeclined? || o.effect.ReservationLost? { DiedAlone(d.payments, i, o.payment); }
      AfterPaymentGood(moved, o.effect, d.payments[i].quote);
      var r := AfterPayment(moved, o.effect, d.payments[i].quote);
      if r.Ok? { OnwardTrans(d.payments, moved.payments, r.value.payments); }
    }
  }

  lemma DiedAlone(payments: seq<P.Payment>, i: nat, q: P.Payment)
    requires PaymentsSound(payments) && i < |payments| && P.Live(payments[i].status) && !P.Live(q.status)
    ensures Active(payments[i := q]).None?
  {
    hide I.Consistent;
    NoneLiveAfter(payments, i, q);
  }

  lemma CancelGood(d: Desk, voided: bool)
    requires Sound(d)
    ensures Good(d, CancelForOrder(d, voided))
  {
    hide PaymentsSound, Captures, P.Cancel;
    Still(d.payments);
    var a := Active(d.payments);
    if a.Some? && P.Cancel(d.payments[a.value], voided).Ok? {
      PaymentSteps(d.payments, a.value, P.Cancellation(voided));
      if SomeCharged(d.payments) { ChargedStays(d.payments, CancelForOrder(d, voided).value.payments); }
    }
  }

  lemma Chain(d: Desk, middle: Desk, r: Result<Desk>)
    requires Good(d, Ok(middle)) && Good(middle, r)
    ensures Good(d, r)
  {
    hide Sound;
    if r.Ok? { OnwardTrans(d.payments, middle.payments, r.value.payments); }
  }

  /** The price, the departure and the version carry no obligation. */
  lemma Relabelled(d: Desk, price: Option<nat>, departed: bool, version: nat)
    requires Sound(d)
    ensures Good(d, Ok(d.(order := d.order.(price := price, departed := departed, version := version))))
  {
    hide PaymentsSound, SomeCharged;
    Still(d.payments);
  }

  lemma AcceptGood(d: Desk, technician: nat, price: nat, eligible: bool)
    requires Sound(d)
    ensures Good(d, Accept(d, technician, price, eligible))
  {
    hide Sound, O.Transition;
    var priced := d.(order := d.order.(price := Some(price)));
    Relabelled(d, Some(price), d.order.departed, d.order.version);
    OrderMoves(priced, O.Accepted, O.TechnicianUser(technician), None);
  }

  lemma ScheduleGood(d: Desk, technician: nat, eligible: bool, terms: Option<RuleTerms>, taxes: TaxRates)
    requires Sound(d)
    ensures Good(d, Schedule(d, technician, eligible, terms, taxes))
  {
    hide Sound, O.Transition, Compute;
    OrderMoves(d, O.Scheduled, O.TechnicianUser(technician), None);
    var moved := MoveOrder(d, O.Scheduled, O.TechnicianUser(technician));
    if moved.Ok? && Active(moved.value.payments).None? && terms.Some? {
      var price := if moved.value.order.price.Some? then moved.value.order.price.value else 0;
      var quote := Compute(price, terms.value, taxes);
      if quote.Ok? {
        AddedGood(moved.value, quote.value, moved.value.order.departed);
        Chain(d, moved.value, AddPayment(moved.value, quote.value));
      }
    }
  }

  lemma DepartGood(d: Desk, technician: nat, ready: bool, answer: Option<P.Report>)
    requires Sound(d)
    ensures Good(d, Depart(d, technician, ready, answer))
  {
    hide Sound, OnPayment;
    var a := Active(d.payments);
    if a.Some? {
      Relabelled(d, d.order.price, true, d.order.version + 1);
      Still(d.payments);
      if answer.Some? {
        OnPaymentGood(d, a.value, P.Reported(answer.value));
        var reported := OnPayment(d, a.value, P.Reported(answer.value));
        if reported.Ok? {
          Relabelled(reported.value, reported.value.order.price, true, reported.value.order.version + 1);
          Chain(d, reported.value, Ok(Departed(reported.value, a.value)));
        }
      }
    }
  }

  /** Giving up the payment and then moving the order. */
  lemma CancelThenMove(d: Desk, voided: bool, to: O.OrderStatus, actor: O.Actor)
    requires Sound(d)
    ensures var c := CancelForOrder(d, voided); c.Ok? ==> Good(d, c) && Good(d, MoveOrder(c.value, to, actor))
  {
    hide Sound, CancelForOrder, O.Transition;
    CancelGood(d, voided);
    var c := CancelForOrder(d, voided);
    if c.Ok? {
      OrderMoves(c.value, to, actor, None);
      Chain(d, c.value, MoveOrder(c.value, to, actor));
    }
  }

  /** Moving the order to COMPLETED, and on to READY_FOR_REVIEW when the money is already in. */
  lemma CompletedGood(d: Desk, actor: O.Actor, expected: Option<nat>)
    requires Sound(d)
    ensures var c := MoveOrder(d, O.Completed, actor, expected); c.Ok? ==> Good(d, AfterCompleted(c.value))
  {
    hide Sound, O.Transition, Captured;
    OrderMoves(d, O.Completed, actor, expected);
    var c := MoveOrder(d, O.Completed, actor, expected);
    if c.Ok? {
      CapturedGood(c.value);
      Chain(d, c.value, Captured(c.value));
    }
  }

  lemma CancelByClientGood(d: Desk, client: nat, fee: nat, feeTerms: RuleTerms, answer: Option<P.Report>, voided: bool)
    requires Sound(d)
    ensures Good(d, CancelByClient(d, client, fee, feeTerms, answer, voided))
  {
    hide Sound, O.Transition, OnPayment, CancelForOrder;
    OrderMoves(d, O.Cancelled, O.ClientUser(client), None);
    var moved, a := MoveOrder(d, O.Cancelled, O.ClientUser(client)), Active(d.payments);
    if moved.Ok? {
      CancelGood(moved.value, voided);
      Chain(d, moved.value, CancelForOrder(moved.value, voided));
      if a.Some? {
        OnPaymentGood(moved.value, a.value, P.VisitFee(fee, feeTerms, answer, voided));
        Chain(d, moved.value, OnPayment(moved.value, a.value, P.VisitFee(fee, feeTerms, answer, voided)));
      }
    }
  }

  lemma {:induction false} PaidIsCharged(p: P.Payment)
    requires I.Consistent(p) && Confirmed(p.status)
    ensures Charged(p)
  {
  }

  lemma ReviewGood(d: Desk, client: nat)
    requires Sound(d)
    ensures Good(d, Review(d, client))
  {
    hide I.Consistent, O.Transition, Captures;
    OrderMoves(d, O.Reviewed, O.ClientUser(client), None);
    var a, moved := Active(d.payments), MoveOrder(d, O.Reviewed, O.ClientUser(client));
    if a.Some? && Confirmed(d.payments[a.value].status) && moved.Ok? {
      PaidIsCharged(d.payments[a.value]);
      assert moved.value.payments == d.payments;
    }
  }

  /** A payment's call followed by a move of the order. */
  lemma PayThenMove(d: Desk, i: nat, e: P.Event, to: O.OrderStatus)
    requires Sound(d)
    ensures var r := OnPayment(d, i, e); r.Ok? ==> Good(d, MoveOrder(r.value, to, O.AdminUser))
  {
    hide Sound, O.Transition, OnPayment;
    OnPaymentGood(d, i, e);
    var r := OnPayment(d, i, e);
    if r.Ok? {
      OrderMoves(r.value, to, O.AdminUser, None);
      Chain(d, r.value, MoveOrder(r.value, to, O.AdminUser));
    }
  }

  lemma ResolveGood(d: Desk, admin: P.Actor, outcome: Resolution, cents: Option<int>, answer: Option<P.Report>,
                    refunded: P.RefundAnswer, voided: bool)
    requires Sound(d)
    ensures Good(d, Resolve(d, admin, outcome, cents, answer, refunded, voided))
  {
    hide Sound, O.Transition, OnPayment, CancelForOrder, PriceForCharge, AfterCompleted, MoveOrder, Active, Onward,
        P.Cancellable;
    var a, to := Active(d.payments), AfterPaymentStatus(d.order);
    match outcome {
      case ReleasePayment =>
        OrderMoves(d, to, O.AdminUser, None);
        CompletedGood(d, O.AdminUser, None);
      case PartialRefund =>
        if a.Some? {
          var p := d.payments[a.value];
          PayThenMove(d, a.value, P.FinanceRefund(admin, cents, P.ServiceDeficient, P.FromDispute, refunded), to);
          if cents.Some? && 0 < cents.value < p.amount {
            PayThenMove(d, a.value, P.PartCapture(PriceForCharge(p.amount - cents.value, p.quote.taxes.serviceBp),
                None, answer), to);
          }
        }
      case FullRefund =>
        CancelThenMove(d, voided, O.Cancelled, O.AdminUser);
        if a.Some? {
          OnPaymentGood(d, a.value, P.FinanceRefund(admin, None, P.ServiceNotProvided, P.FromDispute, refunded));
        }
    }
  }

  lemma StepSound(d: Desk, action: Action)
    requires Sound(d)
    ensures Good(d, Do(d, action)) && Good(d, Ok(Step(d, action)))
  {
    hide Sound, Onward, Accept, Schedule, Depart, Resolve, Review, CancelByClient, OnPayment, CancelForOrder,
        MoveOrder, AfterCompleted;
    Still(d.payments);
    match action {
      case Accepting(technician, price, eligible) => AcceptGood(d, technician, price, eligible);
      case Scheduling(technician, eligible, terms, taxes) => ScheduleGood(d, technician, eligible, terms, taxes);
      case Departing(technician, ready, answer) => DepartGood(d, technician, ready, answer);
      case Withdrawing(technician, voided) => CancelThenMove(d, voided, O.Requested, O.TechnicianUser(technician));
      case Releasing(voided) => CancelThenMove(d, voided, O.Requested, O.Job);
      case Starting(technician, _) => OrderMoves(d, O.InProgress, O.TechnicianUser(technician), None);
      case Finishing(technician) => OrderMoves(d, O.AwaitingApproval, O.TechnicianUser(technician), None);
      case Approving(client, expected) => CompletedGood(d, O.ClientUser(client), expected);
      case AutoApproving => CompletedGood(d, O.Job, None);
      case Cancelling(client, fee, feeTerms, answer, voided) =>
        CancelByClientGood(d, client, fee, feeTerms, answer, voided);
      case Disputing(client, _) => OrderMoves(d, O.Disputed, O.ClientUser(client), None);
      case Resolving(admin, outcome, cents, answer, refunded, voided) =>
        ResolveGood(d, admin, outcome, cents, answer, refunded, voided);
      case Reviewing(client) => ReviewGood(d, client);
      case Expiring => OrderMoves(d, O.Cancelled, O.Job, None);
      case AskingRefund(client, _, cents, reason) =>
        var a := Active(d.payments);
        if a.Some? { OnPaymentGood(d, a.value, P.ClientRequest(client, cents, reason)); }
      case ToPayment(i, e) => OnPaymentGood(d, i, e);
    }
  }

  lemma {:induction false} RunSound(d: Desk, actions: seq<Action>)
    requires Sound(d)
    ensures Sound(Run(d, actions)) && Onward(d.payments, Run(d, actions).payments)
    decreases |actions|
  {
    hide Sound, Step;
    Still(d.payments);
    if actions == [] {
    } else {
      var next := Step(d, actions[0]);
      StepSound(d, actions[0]);
      RunSound(next, actions[1..]);
      OnwardTrans(d.payments, next.payments, Run(next, actions[1..]).payments);
    }
  }

  // ---------------------------------------------------------------------------
  // Theorems
  // ---------------------------------------------------------------------------

  function Reached(client: nat, requested: Option<nat>, actions: seq<Action>): Desk {
    Run(NewDesk(client, requested), actions)
  }

  lemma ReachedSound(client: nat, requested: Option<nat>, actions: seq<Action>)
    ensures Sound(Reached(client, requested, actions))
  {
    RunSound(NewDesk(client, requested), actions);
  }

  lemma ChargedIsLive(p: P.Payment)
    requires I.Consistent(p)
    ensures Captures(p.ledger) <= 1
    ensures Charged(p) ==> P.Live(p.status)
  {
  }

  /**
   However an order is scheduled, declined, withdrawn, reassigned, cancelled or reported late, it never has
   two live payments, and the client is charged for it at most once.
   */
  lemma RunChargesOnce(client: nat, requested: Option<nat>, actions: seq<Action>)
    ensures var ps := Reached(client, requested, actions).payments;
            && (forall i :: 0 <= i < |ps| ==> Captures(ps[i].ledger) <= 1)
            && (forall i, j :: 0 <= i < j < |ps| ==> !(P.Live(ps[i].status) && P.Live(ps[j].status)))
            && (forall i, j :: 0 <= i < j < |ps| ==> !(Charged(ps[i]) && Charged(ps[j])))
  {
    hide Reached, I.Consistent, Captures;
    ReachedSound(client, requested, actions);
    var ps := Reached(client, requested, actions).payments;
    forall i | 0 <= i < |ps| ensures Captures(ps[i].ledger) <= 1 && (Charged(ps[i]) ==> P.Live(ps[i].status)) {
      ChargedIsLive(ps[i]);
    }
  }

  /** A dead payment keeps its state and its book, whatever happens to its order afterwards. */
  lemma DeadStaysDead(d: Desk, actions: seq<Action>, i: nat)
    requires Sound(d) && i < |d.payments| && !P.Live(d.payments[i].status)
    ensures var after := Run(d, actions).payments;
            i < |after| && after[i].status == d.payments[i].status && after[i].ledger == d.payments[i].ledger
  {
    hide Run, Sound;
    RunSound(d, actions);
    assert T.Continues(d.payments[i], Run(d, actions).payments[i]);
  }

  /** A scheduled order whose payment dies always gets its replacement, with the same frozen split. */
  lemma ReplacementAdmitted(d: Desk, i: nat, e: P.Event)
    requires Sound(d) && d.order.status == O.Scheduled && i < |d.payments| && P.Apply(d.payments[i], e).Ok?
    requires var effect := P.Apply(d.payments[i], e).value.effect; effect.PaymentDeclined? || effect.ReservationLost?
    ensures var r := OnPayment(d, i, e);
            && r.Ok? && !r.value.order.departed && r.value.order.status == O.Scheduled
            && r.value.payments == d.payments[i := P.Apply(d.payments[i], e).value.payment]
                + [P.NewPayment(d.payments[i].quote)]
            && Active(r.value.payments) == Some(|d.payments|)
  {
    hide P.Apply, I.Consistent;
    EffectTells(d.payments[i], e);
    var before := d.payments[i := P.Apply(d.payments[i], e).value.payment];
    DiedAlone(d.payments, i, P.Apply(d.payments[i], e).value.payment);
    assert (before + [P.NewPayment(d.payments[i].quote)])[..|before|] == before;
  }

  /** Nobody rates a service whose payment was never charged. */
  lemma ReviewedWasCharged(client: nat, requested: Option<nat>, actions: seq<Action>)
    ensures var d := Reached(client, requested, actions); d.order.reviewed ==> SomeCharged(d.payments)
  {
    hide Reached, PaymentsSound;
    ReachedSound(client, requested, actions);
  }

  /** The report of a charge on a reservation that can still be charged. */
  lemma ChargeReported(p: P.Payment, report: P.Report)
    requires I.Consistent(p) && P.Cancellable(p.status) && report.status == P.Paid
    ensures P.Apply(p, P.Reported(report)) == Ok(P.Outcome(P.Step(p, P.Reported(report)), P.CaptureConfirmed))
    ensures P.Step(p, P.Reported(report)).status == P.Paid
  {
    hide I.RefundsAgree, I.BookAgrees, I.ChargebackAgrees, P.MarkCaptured, RowAdmitted;
    var q := if p.providerId.None? then p.(providerId := report.providerId) else p;
    I.CaptureReportKeeps(q, report.received);
    T.MarkedPaid(q.(status := P.Authorized), report.received);
  }

  /** The report of the charge of the order's payment, step by step. */
  lemma CaptureStep(d: Desk, i: nat, report: P.Report)
    requires Sound(d) && Active(d.payments) == Some(i) && P.Cancellable(d.payments[i].status) && report.status == P.Paid
    ensures var p := P.Step(d.payments[i], P.Reported(report));
            && p.status == P.Paid && Active(d.payments[i := p]) == Some(i)
            && Do(d, ToPayment(i, P.Reported(report))) == Captured(d.(payments := d.payments[i := p]))
  {
    hide P.Apply, P.Step, I.Consistent, Captured;
    ChargeReported(d.payments[i], report);
    StillActive(d.payments, i, P.Step(d.payments[i], P.Reported(report)));
  }

  lemma StillActive(payments: seq<P.Payment>, i: nat, p: P.Payment)
    requires PaymentsSound(payments) && Active(payments) == Some(i) && P.Live(p.status)
    ensures Active(payments[i := p]) == Some(i)
  {
    hide I.Consistent;
    var after := payments[i := p];
    assert P.Live(after[i].status);
    forall k | 0 <= k < |after| && k != i ensures !P.Live(after[k].status) { assert after[k] == payments[k]; }
  }

  /** The order of a client who approved, before any capture. */
  function CompletedOrder(order: O.Order): O.Order {
    order.(status := O.Completed, version := order.version + 1)
  }

  function ReadyOrder(order: O.Order): O.Order {
    order.(status := O.ReadyForReview, version := order.version + 2)
  }

  lemma CapturedMoves(d: Desk)
    ensures Captured(d) == Ok(if d.order.status == O.Completed then d.(order := ReadyOrder(d.order)) else d)
  {
  }

  /** The client's approval of the order as it is, with or without naming its version, or the job's. */
  predicate Approval(order: O.Order, action: Action) {
    || action == AutoApproving
    || action == Approving(order.client, None) || action == Approving(order.client, Some(order.version))
  }

  lemma ApprovalMoves(d: Desk, i: nat, approval: Action)
    requires d.order.status == O.AwaitingApproval && Active(d.payments) == Some(i)
    requires Approval(d.order, approval)
    ensures Step(d, approval)
            == d.(order := if Confirmed(d.payments[i].status) then ReadyOrder(CompletedOrder(d.order))
                else CompletedOrder(d.order))
  {
    hide Captured;
    CapturedMoves(d.(order := CompletedOrder(d.order)));
    assert O.System in O.Caps(O.Job, d.order, O.Completed) * O.AllowedTo(d.order.status, O.Completed);
    var caps := O.Caps(O.ClientUser(d.order.client), d.order, O.Completed);
    assert O.Client in caps * O.AllowedTo(d.order.status, O.Completed);
  }

  /** The client's approval and the provider's capture may come in either order: the result is the same desk. */
  lemma ApprovalAndCaptureCommute(d: Desk, i: nat, report: P.Report, approval: Action)
    requires Sound(d) && d.order.status == O.AwaitingApproval
    requires Active(d.payments) == Some(i) && P.Cancellable(d.payments[i].status) && report.status == P.Paid
    requires Approval(d.order, approval)
    ensures var captured := ToPayment(i, P.Reported(report));
            && Step(Step(d, approval), captured) == Step(Step(d, captured), approval)
            && Step(Step(d, approval), captured).order.status == O.ReadyForReview
  {
    hide P.Step, Sound, Do, Captured;
    var captured := ToPayment(i, P.Reported(report));
    CaptureStep(d, i, report);
    var paid := d.payments[i := P.Step(d.payments[i], P.Reported(report))];
    ApprovalMoves(d, i, approval);
    StepSound(d, approval);
    CaptureStep(d.(order := CompletedOrder(d.order)), i, report);
    CapturedMoves(Desk(d.order, paid));
    CapturedMoves(Desk(CompletedOrder(d.order), paid));
    ApprovalMoves(Desk(d.order, paid), i, approval);
  }

  lemma PartCaptureCharges(p: P.Payment, price: int, answer: P.Report)
    requires I.Consistent(p)
    ensures var r := P.CapturePart(p, price, None, Some(answer));
            r.Ok? ==> (Charged(r.value.payment) <==> answer.status == P.Paid)
  {
    if P.CapturePart(p, price, None, Some(answer)).Err? { return; }
    hide Compute, I.RefundsAgree, I.ChargebackAgrees, P.MarkCaptured, Balanced, RowAdmitted;
    I.CapturePartKeeps(p, price, None, Some(answer));
    var b := Compute(price, p.quote.terms, p.quote.taxes).value;
    var asked := if b.Charge() >= p.amount then p else p.(partial := Some(b));
    if answer.status == P.Paid {
      if b.Charge() < p.amount { I.UnchargedMove(p, asked); }
      ChargeReported(asked, answer);
    } else {
      I.StatusReportShape(asked, answer);
    }
  }

  /** While the order is in dispute the outcome of a capture does not move it. */
  lemma PartCaptureOnDispute(d: Desk, i: nat, price: int, answer: P.Report, after: Desk)
    requires d.order.status == O.Disputed && i < |d.payments|
    requires OnPayment(d, i, P.PartCapture(price, None, Some(answer))) == Ok(after)
    ensures var r := P.CapturePart(d.payments[i], price, None, Some(answer));
            r.Ok? && after.payments == d.payments[i := r.value.payment]
  {
    hide P.CapturePart, O.Transition;
  }

  lemma MoveReaches(d: Desk, to: O.OrderStatus)
    ensures
      var r := MoveOrder(d, to, O.AdminUser);
      r.Ok? ==> r.value.order.status == to && r.value.payments == d.payments
  {
  }

  /**
   Settling a client's dispute by capturing part of the reservation makes the order ready for review in any
   case; the client was charged exactly when the provider answered that the payment was paid.
   */
  lemma PartialResolutionCharges(d: Desk, i: nat, admin: P.Actor, cents: nat, answer: P.Report, after: Desk)
    requires Sound(d) && d.order.status == O.Disputed && !d.order.reviewed
    requires Active(d.payments) == Some(i) && d.payments[i].status == P.Authorized
    requires ResolvePartial(d, admin, Some(cents), Some(answer), P.Unreachable) == Ok(after)
    ensures after.order.status == O.ReadyForReview
    ensures SomeCharged(after.payments) <==> answer.status == P.Paid
  {
    hide P.CapturePart, OnPayment, I.Consistent, AtMostOneLive, PriceForCharge, Charged, MoveOrder, P.PolicyOf;
    var p := d.payments[i];
    var price := PriceForCharge(p.amount - cents, p.quote.taxes.serviceBp);
    var captured := OnPayment(d, i, P.PartCapture(price, None, Some(answer))).value;
    PartCaptureOnDispute(d, i, price, answer, captured);
    PartCaptureCharges(p, price, answer);
    OnlyLiveCharged(d.payments, i, captured.payments[i]);
    MoveReaches(captured, O.ReadyForReview);
    hide ResolvePartial, Sound, SomeCharged;
  }

  lemma OnlyLiveCharged(payments: seq<P.Payment>, i: nat, p: P.Payment)
    requires PaymentsSound(payments) && i < |payments| && P.Live(payments[i].status)
    ensures SomeCharged(payments[i := p]) <==> Charged(p)
  {
    hide I.Consistent, Captures;
    var after := payments[i := p];
    forall k | 0 <= k < |payments| && k != i ensures !Charged(after[k]) { ChargedIsLive(payments[k]); }
    assert after[i] == p;
  }
}