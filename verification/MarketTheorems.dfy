/** The critical rule: who holds an order that has not started can work and can be paid, on every run. */
module MarketTheorems {
  import opened Results
  import opened Commission
  import K = Kyc
  import O = Orders
  import P = Payments
  import D = Desk
  import DT = DeskTheorems
  import opened Marketplace

  // ---------------------------------------------------------------------------
  // How one order moves
  // ---------------------------------------------------------------------------

  /** Every move other than an acceptance: nobody new holds the order, and it returns to the pool only from a holder. */
  predicate Kept(o: O.Order, after: O.Order) {
    && after.requested == o.requested
    && (O.PreStart(after.status) ==> O.PreStart(o.status) && after.technician == o.technician)
    && (after.status == O.Requested ==> o.status == O.Requested || O.PreStart(o.status))
  }

  predicate KeptBy(d: D.Desk, r: Result<D.Desk>) {
    r.Ok? ==> Kept(d.order, r.value.order)
  }

  lemma MoveKept(d: D.Desk, to: O.OrderStatus, actor: O.Actor, expected: Option<nat>)
    requires to != O.Accepted
    ensures KeptBy(d, D.MoveOrder(d, to, actor, expected))
  {
    hide O.Caps;
  }

  lemma CapturedKept(d: D.Desk)
    ensures KeptBy(d, D.Captured(d))
  {
    hide O.Transition;
    MoveKept(d, O.Paid, O.Job, None);
    var paid := D.MoveOrder(d, O.Paid, O.Job);
    if paid.Ok? { MoveKept(paid.value, O.ReadyForReview, O.Job, None); }
  }

  lemma OnPaymentKept(d: D.Desk, i: nat, e: P.Event)
    ensures KeptBy(d, D.OnPayment(d, i, e))
  {
    hide P.Apply, O.Transition, D.Captured;
    if i < |d.payments| && P.Apply(d.payments[i], e).Ok? {
      var moved := d.(payments := d.payments[i := P.Apply(d.payments[i], e).value.payment]);
      CapturedKept(moved);
      MoveKept(moved, O.Failed, O.Job, None);
      MoveKept(moved, O.Refunded, O.Job, None);
    }
  }

  lemma CancelKept(d: D.Desk, voided: bool)
    ensures KeptBy(d, D.CancelForOrder(d, voided))
  {
    hide P.Cancel;
  }

  lemma CancelThenMoveKept(d: D.Desk, voided: bool, to: O.OrderStatus, actor: O.Actor)
    requires to != O.Accepted
    ensures var c := D.CancelForOrder(d, voided); c.Ok? ==> KeptBy(d, D.MoveOrder(c.value, to, actor))
  {
    hide O.Transition, D.CancelForOrder;
    CancelKept(d, voided);
    var c := D.CancelForOrder(d, voided);
    if c.Ok? { MoveKept(c.value, to, actor, None); }
  }

  lemma CompletedKept(d: D.Desk, actor: O.Actor, expected: Option<nat>)
    ensures var c := D.MoveOrder(d, O.Completed, actor, expected); c.Ok? ==> KeptBy(d, D.AfterCompleted(c.value))
  {
    hide O.Transition, D.Captured;
    MoveKept(d, O.Completed, actor, expected);
    var c := D.MoveOrder(d, O.Completed, actor, expected);
    if c.Ok? { CapturedKept(c.value); }
  }

  lemma PayThenMoveKept(d: D.Desk, i: nat, e: P.Event, to: O.OrderStatus)
    requires to != O.Accepted
    ensures var r := D.OnPayment(d, i, e); r.Ok? ==> KeptBy(d, D.MoveOrder(r.value, to, O.AdminUser))
  {
    hide O.Transition, D.OnPayment;
    OnPaymentKept(d, i, e);
    var r := D.OnPayment(d, i, e);
    if r.Ok? { MoveKept(r.value, to, O.AdminUser, None); }
  }

  lemma ResolveKept(d: D.Desk, admin: P.Actor, outcome: D.Resolution, cents: Option<int>, answer: Option<P.Report>,
                    refunded: P.RefundAnswer, voided: bool)
    ensures KeptBy(d, D.Resolve(d, admin, outcome, cents, answer, refunded, voided))
  {
    hide O.Transition, D.OnPayment, D.CancelForOrder, PriceForCharge, D.AfterCompleted, D.MoveOrder, P.Cancellable,
        Kept, D.Active;
    var a, to := D.Active(d.payments), D.AfterPaymentStatus(d.order);
    match outcome {
      case ReleasePayment =>
        MoveKept(d, to, O.AdminUser, None);
        CompletedKept(d, O.AdminUser, None);
      case PartialRefund =>
        if a.Some? {
          var p := d.payments[a.value];
          PayThenMoveKept(d, a.value, P.FinanceRefund(admin, cents, P.ServiceDeficient, P.FromDispute, refunded), to);
          if cents.Some? && 0 < cents.value < p.amount {
            PayThenMoveKept(d, a.value, P.PartCapture(PriceForCharge(p.amount - cents.value,
                p.quote.taxes.serviceBp), None, answer), to);
          }
        }
      case FullRefund =>
        CancelThenMoveKept(d, voided, O.Cancelled, O.AdminUser);
        if a.Some? {
          OnPaymentKept(d, a.value, P.FinanceRefund(admin, None, P.ServiceNotProvided, P.FromDispute, refunded));
        }
    }
  }

  lemma CancelByClientKept(d: D.Desk, client: nat, fee: nat, feeTerms: RuleTerms, answer: Option<P.Report>,
      voided: bool)
    ensures KeptBy(d, D.CancelByClient(d, client, fee, feeTerms, answer, voided))
  {
    hide O.Transition, D.OnPayment, D.CancelForOrder;
    MoveKept(d, O.Cancelled, O.ClientUser(client), None);
    var moved, a := D.MoveOrder(d, O.Cancelled, O.ClientUser(client)), D.Active(d.payments);
    if moved.Ok? {
      CancelKept(moved.value, voided);
      if a.Some? { OnPaymentKept(moved.value, a.value, P.VisitFee(fee, feeTerms, answer, voided)); }
    }
  }

  lemma ScheduleKept(d: D.Desk, technician: nat, eligible: bool, terms: Option<RuleTerms>, taxes: TaxRates)
    ensures KeptBy(d, D.Schedule(d, technician, eligible, terms, taxes))
  {
    hide O.Transition, Compute;
    MoveKept(d, O.Scheduled, O.TechnicianUser(technician), None);
  }

  lemma DepartKept(d: D.Desk, technician: nat, ready: bool, answer: Option<P.Report>)
    ensures KeptBy(d, D.Depart(d, technician, ready, answer))
  {
    hide D.OnPayment;
    var a := D.Active(d.payments);
    if a.Some? && answer.Some? { OnPaymentKept(d, a.value, P.Reported(answer.value)); }
  }

  lemma ActionKept(d: D.Desk, action: D.Action)
    requires !action.Accepting?
    ensures KeptBy(d, D.Do(d, action))
  {
    hide D.Schedule, D.Depart, D.Resolve, D.CancelByClient, D.OnPayment, D.CancelForOrder, D.MoveOrder,
        D.AfterCompleted, Kept;
    Same(d.order);
    match action {
      case Scheduling(technician, eligible, terms, taxes) => ScheduleKept(d, technician, eligible, terms, taxes);
      case Departing(technician, ready, answer) => DepartKept(d, technician, ready, answer);
      case Withdrawing(technician, voided) => CancelThenMoveKept(d, voided, O.Requested, O.TechnicianUser(technician));
      case Releasing(voided) => CancelThenMoveKept(d, voided, O.Requested, O.Job);
      case Starting(technician, _) => MoveKept(d, O.InProgress, O.TechnicianUser(technician), None);
      case Finishing(technician) => MoveKept(d, O.AwaitingApproval, O.TechnicianUser(technician), None);
      case Approving(client, expected) => CompletedKept(d, O.ClientUser(client), expected);
      case AutoApproving => CompletedKept(d, O.Job, None);
      case Cancelling(client, fee, feeTerms, answer, voided) =>
        CancelByClientKept(d, client, fee, feeTerms, answer, voided);
      case Disputing(client, _) => MoveKept(d, O.Disputed, O.ClientUser(client), None);
      case Resolving(admin, outcome, cents, answer, refunded, voided) =>
        ResolveKept(d, admin, outcome, cents, answer, refunded, voided);
      case Reviewing(client) => ReviewKept(d, client);
      case Expiring => MoveKept(d, O.Cancelled, O.Job, None);
      case AskingRefund(client, _, cents, reason) =>
        var a := D.Active(d.payments);
        if a.Some? { OnPaymentKept(d, a.value, P.ClientRequest(client, cents, reason)); }
      case ToPayment(i, e) => OnPaymentKept(d, i, e);
    }
  }

  lemma ReviewKept(d: D.Desk, client: nat)
    ensures KeptBy(d, D.Review(d, client))
  {
    hide O.Transition;
    MoveKept(d, O.Reviewed, O.ClientUser(client), None);
  }

  lemma Same(o: O.Order)
    ensures Kept(o, o)
  {
  }

  /** An acceptance gives an order of the pool to the one who accepts, if it is open to them. */
  lemma AcceptTakes(d: D.Desk, technician: nat, price: nat, eligible: bool)
    requires O.Assigned(d.order)
    ensures var r := D.Accept(d, technician, price, eligible);
            r.Ok? ==> eligible && d.order.status == O.Requested && r.value.order.status == O.Accepted
                      && r.value.order.technician == Some(technician) && r.value.order.requested == d.order.requested
                      && (d.order.requested.None? || d.order.requested == Some(technician))
  {
    hide O.Caps;
    if D.Accept(d, technician, price, eligible).Ok? {
      O.AcceptedByEligible(d.order.(price := Some(price)), O.TechnicianUser(technician));
    }
  }

  // ---------------------------------------------------------------------------
  // The invariant
  // ---------------------------------------------------------------------------

  /** The critical rule at one order: its holder, or who it is reserved for, is eligible. */
  ghost predicate RuleAt(m: Market, o: O.Order) {
    && (O.PreStart(o.status) ==>
          && o.technician.Some? && Eligible(m, o.technician.value)
          && (o.requested.None? || o.requested == o.technician))
    && (o.status == O.Requested && o.requested.Some? ==> Eligible(m, o.requested.value))
  }

  ghost predicate CriticalRule(m: Market) {
    forall i :: 0 <= i < |m.desks| ==> DT.Sound(m.desks[i]) && RuleAt(m, m.desks[i].order)
  }

  /** An account's block and the state of its owner's identity agree. */
  predicate BlockAgrees(technicians: seq<Technician>, a: Account) {
    && a.owner < |technicians|
    && (technicians[a.owner].profile.status in {K.Suspended, K.Expired} ==> a.blocked.Some?)
    && (KycBlock(a.blocked) ==> technicians[a.owner].profile.status != K.Approved)
  }

  ghost predicate BlocksTrackIdentity(m: Market) {
    forall i :: 0 <= i < |m.accounts| ==> BlockAgrees(m.technicians, m.accounts[i])
  }

  ghost predicate InCharge(m: Market) {
    forall t :: 0 <= t < |m.technicians| ==> K.InCharge(m.technicians[t].profile)
  }

  ghost predicate Lawful(m: Market) {
    CriticalRule(m) && BlocksTrackIdentity(m) && InCharge(m)
  }

  ghost predicate LawfulResult(r: Result<Market>) {
    r.Ok? ==> Lawful(r.value)
  }

  /** Nobody but `t` lost eligibility between two markets. */
  ghost predicate OnlyMayLose(m: Market, after: Market, t: nat) {
    forall u: nat :: u != t && Eligible(m, u) ==> Eligible(after, u)
  }

  /** Nobody lost eligibility. */
  ghost predicate NobodyLoses(m: Market, after: Market) {
    forall u: nat :: Eligible(m, u) ==> Eligible(after, u)
  }

  // ---------------------------------------------------------------------------
  // Releases
  // ---------------------------------------------------------------------------

  /** A desk let go of a technician keeps its money sound, and meets the rule without that technician. */
  lemma ReleasedMeetsRule(m: Market, after: Market, d: D.Desk, t: nat, voided: bool)
    requires DT.Sound(d) && RuleAt(m, d.order) && OnlyMayLose(m, after, t) && !(Held(d, t) && Processing(d))
    ensures DT.Sound(Released(d, t, voided)) && RuleAt(after, Released(d, t, voided).order)
  {
    hide Eligible, D.CancelForOrder, O.Caps, DT.PaymentsSound, DT.SomeCharged, Processing;
    LetGoFails(d, t, voided);
    if Held(d, t) {
      DT.StepSound(d, D.Releasing(voided));
      ReleaseMoves(d, voided);
    }
  }

  lemma ReleaseMoves(d: D.Desk, voided: bool)
    requires O.PreStart(d.order.status) && D.Release(d, voided).Ok?
    ensures var o := D.Release(d, voided).value.order;
            o.status == O.Requested && o.technician.None? && o.requested == d.order.requested
  {
    hide P.Cancel;
  }

  /** After a release the technician holds nothing that has not started, and no reservation in the pool. */
  lemma ReleasedIsFree(d: D.Desk, t: nat, voided: bool)
    requires !(Held(d, t) && Processing(d))
    ensures var o := Released(d, t, voided).order;
            && !(O.PreStart(o.status) && o.technician == Some(t))
            && !(o.status == O.Requested && o.requested == Some(t))
    ensures
      !Held(d, t) && !(d.order.status == O.Requested && d.order.requested == Some(t)) ==>
        Released(d, t, voided) == d
  {
    hide Processing, D.Release;
    LetGoFails(d, t, voided);
    if Held(d, t) { ReleaseMoves(d, voided); }
  }

  /** A release restores the rule for a market in which one technician is not eligible any more. */
  lemma ReleaseRestoresRule(m: Market, after: Market, t: nat, voided: nat -> bool)
    requires CriticalRule(m) && after.desks == m.desks && OnlyMayLose(m, after, t)
    ensures WithDesks(after, t, voided).Ok? ==> CriticalRule(WithDesks(after, t, voided).value)
  {
    hide Eligible, DT.Sound, Held, Processing, Released, OnlyMayLose;
    if WithDesks(after, t, voided).Ok? {
      var freed := WithDesks(after, t, voided).value;
      SameEligibility(after, freed);
      LoseThenKeep(m, after, freed, t);
      forall i | 0 <= i < |freed.desks| ensures DT.Sound(freed.desks[i]) && RuleAt(freed, freed.desks[i].order) {
        ReleasedMeetsRule(m, freed, m.desks[i], t, voided(i));
      }
    }
  }

  lemma LoseThenKeep(m: Market, after: Market, last: Market, t: nat)
    requires OnlyMayLose(m, after, t) && NobodyLoses(after, last)
    ensures OnlyMayLose(m, last, t)
  {
    hide Eligible;
  }

  lemma SameEligibility(m: Market, after: Market)
    requires after.technicians == m.technicians && after.accounts == m.accounts
    ensures NobodyLoses(m, after)
  {
  }

  /** Where nobody loses eligibility the orders may stay as they are. */
  lemma RuleStays(m: Market, after: Market)
    requires CriticalRule(m) && after.desks == m.desks && NobodyLoses(m, after)
    ensures CriticalRule(after)
  {
    hide Eligible, DT.Sound;
  }

  // ---------------------------------------------------------------------------
  // Each operation
  // ---------------------------------------------------------------------------

  /** A change to the rows of one technician and of the accounts that technician owns. */
  lemma OnlyOwnRows(m: Market, after: Market, t: nat)
    requires |after.technicians| == |m.technicians| && |after.accounts| == |m.accounts|
    requires forall u :: 0 <= u < |m.technicians| && u != t ==> after.technicians[u] == m.technicians[u]
    requires forall i :: 0 <= i < |m.accounts| && m.accounts[i].owner != t ==> after.accounts[i] == m.accounts[i]
    ensures OnlyMayLose(m, after, t)
  {
    forall u: nat | u != t && Eligible(m, u) ensures Eligible(after, u) {
      var i :| 0 <= i < |m.accounts| && m.accounts[i].owner == u && m.accounts[i].CanReceive();
      assert after.accounts[i] == m.accounts[i];
    }
  }

  lemma StatusMoves(m: Market, t: nat, to: K.KycStatus, actor: K.KycActor, reason: bool)
    requires InCharge(m) && WithStatus(m, t, to, actor, reason).Ok?
    ensures var after := WithStatus(m, t, to, actor, reason).value;
            && InCharge(after) && t < |m.technicians| && m.technicians[t].profile.status != to
            && after == m.(technicians := m.technicians[t := after.technicians[t]])
            && after.technicians[t] == m.technicians[t].(profile := after.technicians[t].profile)
            && after.technicians[t].profile.status == to
  {
    K.TransitionKeepsInCharge(m.technicians[t].profile, t, to, actor, reason, None);
    hide K.Transition;
  }

  lemma TakeAwayKeeps(m: Market, t: nat, to: K.KycStatus, actor: K.KycActor, reason: Block, voided: nat -> bool)
    requires Lawful(m) && (to == K.Suspended || to == K.Expired) && KycBlock(Some(reason))
    ensures LawfulResult(TakeAway(m, t, to, actor, reason, voided))
  {
    hide Eligible, DT.Sound, ReleaseAll, RuleAt, K.Transition;
    if TakeAway(m, t, to, actor, reason, voided).Ok? {
      StatusMoves(m, t, to, actor, true);
      var moved := WithStatus(m, t, to, actor, true).value;
      var blocked := BlockForKyc(moved, t, reason);
      OnlyOwnRows(m, blocked, t);
      ReleaseRestoresRule(m, blocked, t, voided);
      assert TakeAway(m, t, to, actor, reason, voided) == WithDesks(blocked, t, voided);
      forall i | 0 <= i < |blocked.accounts| ensures BlockAgrees(blocked.technicians, blocked.accounts[i]) {
        assert BlockAgrees(m.technicians, m.accounts[i]);
      }
    }
  }

  lemma ApproveKeeps(m: Market, t: nat, actor: K.KycActor, complete: bool)
    requires Lawful(m)
    ensures LawfulResult(Approve(m, t, actor, complete))
  {
    hide DT.Sound, RuleAt, K.Transition;
    if Approve(m, t, actor, complete).Ok? {
      StatusMoves(m, t, K.Approved, actor, false);
      var after := Approve(m, t, actor, complete).value;
      forall u: nat | Eligible(m, u) ensures Eligible(after, u) {
        var i :| 0 <= i < |m.accounts| && m.accounts[i].owner == u && m.accounts[i].CanReceive();
        assert after.accounts[i] == m.accounts[i];
      }
      RuleStays(m, after);
      forall i | 0 <= i < |after.accounts| ensures BlockAgrees(after.technicians, after.accounts[i]) {
        assert BlockAgrees(m.technicians, m.accounts[i]);
      }
    }
  }

  /** A move of an identity that was not approved and does not become approved takes nothing away. */
  lemma ReviewKeeps(m: Market, t: nat, to: K.KycStatus, actor: K.KycActor, reason: bool)
    requires Lawful(m) && to != K.Approved && to != K.Suspended && to != K.Expired
    ensures LawfulResult(WithStatus(m, t, to, actor, reason))
  {
    hide DT.Sound, RuleAt, K.Capacities;
    if WithStatus(m, t, to, actor, reason).Ok? {
      StatusMoves(m, t, to, actor, reason);
      var after := WithStatus(m, t, to, actor, reason).value;
      assert m.technicians[t].profile.status != K.Approved;
      forall u: nat | Eligible(m, u) ensures Eligible(after, u) {}
      RuleStays(m, after);
      forall i | 0 <= i < |after.accounts| ensures BlockAgrees(after.technicians, after.accounts[i]) {
        assert BlockAgrees(m.technicians, m.accounts[i]);
      }
    }
  }

  lemma DeactivateKeeps(m: Market, t: nat, voided: nat -> bool)
    requires Lawful(m)
    ensures LawfulResult(Deactivate(m, t, voided))
  {
    hide Eligible, DT.Sound, ReleaseAll, RuleAt;
    if t < |m.technicians| {
      var gone := m.(technicians := m.technicians[t := m.technicians[t].(active := false)]);
      OnlyOwnRows(m, gone, t);
      ReleaseRestoresRule(m, gone, t, voided);
      forall i | 0 <= i < |m.accounts| ensures BlockAgrees(gone.technicians, m.accounts[i]) {
        assert BlockAgrees(m.technicians, m.accounts[i]);
      }
    }
  }

  lemma CreateAccountKeeps(m: Market, t: nat, provider: nat)
    requires Lawful(m)
    ensures LawfulResult(CreateAccount(m, t, provider))
  {
    hide DT.Sound, RuleAt;
    if CreateAccount(m, t, provider).Ok? {
      var after := CreateAccount(m, t, provider).value;
      forall u: nat | Eligible(m, u) ensures Eligible(after, u) {
        var i :| 0 <= i < |m.accounts| && m.accounts[i].owner == u && m.accounts[i].CanReceive();
        assert after.accounts[i] == m.accounts[i];
      }
      RuleStays(m, after);
    }
  }

  /** An account is written: its block still agrees, and either its owner could not be paid by it or is let go. */
  lemma AccountWritten(m: Market, i: nat, a: Account)
    requires BlocksTrackIdentity(m) && i < |m.accounts| && a.owner == m.accounts[i].owner
        && BlockAgrees(m.technicians, a)
    ensures var after := m.(accounts := m.accounts[i := a]);
            && BlocksTrackIdentity(after) && OnlyMayLose(m, after, a.owner)
            && ((m.accounts[i].CanReceive() ==> a.CanReceive()) ==> NobodyLoses(m, after))
  {
    var after := m.(accounts := m.accounts[i := a]);
    OnlyOwnRows(m, after, a.owner);
    if m.accounts[i].CanReceive() ==> a.CanReceive() {
      forall u: nat | Eligible(m, u) ensures Eligible(after, u) {
        var k :| 0 <= k < |m.accounts| && m.accounts[k].owner == u && m.accounts[k].CanReceive();
        assert after.accounts[k].CanReceive();
      }
    }
  }

  lemma WithAccountKeeps(m: Market, i: nat, a: Account, voided: nat -> bool)
    requires Lawful(m) && i < |m.accounts| && a.owner == m.accounts[i].owner && BlockAgrees(m.technicians, a)
    ensures LawfulResult(WithAccount(m, i, a, voided))
  {
    hide Eligible, DT.Sound, ReleaseAll, RuleAt, BlockAgrees;
    var after := m.(accounts := m.accounts[i := a]);
    AccountWritten(m, i, a);
    if m.accounts[i].CanReceive() && !a.CanReceive() {
      ReleaseRestoresRule(m, after, a.owner, voided);
    } else {
      RuleStays(m, after);
    }
  }

  lemma ReviewNameKeeps(m: Market, i: nat, approve: bool, voided: nat -> bool)
    requires Lawful(m)
    ensures LawfulResult(ReviewName(m, i, approve, voided))
  {
    hide Eligible, DT.Sound, ReleaseAll, RuleAt;
    if i < |m.accounts| && m.accounts[i].blocked == Some(NameMismatch) {
      var a := m.accounts[i];
      assert BlockAgrees(m.technicians, a);
      if approve {
        var cleared := a.(blocked := HiddenBlock(m.technicians[a.owner].profile.status), nameMatches := Some(true));
        AccountWritten(m, i, cleared);
        RuleStays(m, m.(accounts := m.accounts[i := cleared]));
      } else {
        var refused := a.(blocked := Some(NameRejected));
        AccountWritten(m, i, refused);
        ReleaseRestoresRule(m, m.(accounts := m.accounts[i := refused]), a.owner, voided);
      }
    }
  }

  lemma PlaceKeeps(m: Market, client: nat, requested: Option<nat>, available: bool)
    requires Lawful(m)
    ensures LawfulResult(PlaceOrder(m, client, requested, available))
  {
    hide Payable, Verified;
    var after := m.(desks := m.desks + [D.NewDesk(client, requested)]);
    SameEligibility(m, after);
  }

  /** A use case, its technician checked against the market, keeps the rule at its order. */
  lemma ActMeetsRule(m: Market, d: D.Desk, action: D.Action)
    requires DT.Sound(d) && RuleAt(m, d.order) && !action.Releasing?
    ensures var r := D.Do(d, Checked(m, action)); r.Ok? ==> DT.Sound(r.value) && RuleAt(m, r.value.order)
  {
    hide Eligible, D.Accept, DT.PaymentsSound, DT.SomeCharged;
    var checked := Checked(m, action);
    DT.StepSound(d, checked);
    if checked.Accepting? {
      AcceptTakes(d, checked.technician, checked.price, checked.eligible);
    } else {
      ActionKept(d, checked);
      hide D.Do;
    }
  }

  lemma ActKeeps(m: Market, i: nat, action: D.Action)
    requires Lawful(m)
    ensures LawfulResult(Act(m, i, action))
  {
    hide Eligible, DT.Sound, D.Do, RuleAt, Checked;
    if Act(m, i, action).Ok? {
      var after := Act(m, i, action).value;
      ActMeetsRule(m, m.desks[i], action);
      forall k | 0 <= k < |after.desks| ensures DT.Sound(after.desks[k]) && RuleAt(after, after.desks[k].order) {
        SameRule(m, after, after.desks[k].order);
      }
    }
  }

  lemma SameRule(m: Market, after: Market, o: O.Order)
    requires after.technicians == m.technicians && after.accounts == m.accounts
    ensures RuleAt(m, o) ==> RuleAt(after, o)
  {
    hide Payable;
  }

  lemma {:induction false} ExpireUpToKeeps(m: Market, due: nat -> bool, voided: nat -> bool, n: nat)
    requires Lawful(m)
    ensures LawfulResult(ExpireUpTo(m, due, voided, n))
  {
    hide Lawful, TakeAway;
    if n == 0 {
    } else if ExpireUpTo(m, due, voided, n - 1).Ok? {
      ExpireUpToKeeps(m, due, voided, n - 1);
      TakeAwayKeeps(ExpireUpTo(m, due, voided, n - 1).value, n - 1, K.Expired, K.Job, KycExpired, voided);
    }
  }

  lemma RegisterKeeps(m: Market)
    requires Lawful(m)
    ensures LawfulResult(Do(m, Registering))
  {
    hide DT.Sound, RuleAt;
    var after := Do(m, Registering).value;
    forall u: nat | Eligible(m, u) ensures Eligible(after, u) {}
    RuleStays(m, after);
    forall i | 0 <= i < |m.accounts| ensures BlockAgrees(after.technicians, m.accounts[i]) {
      assert BlockAgrees(m.technicians, m.accounts[i]);
    }
  }

  lemma SyncKeeps(m: Market, i: nat, info: AccountInfo, matches: Option<bool>, voided: nat -> bool)
    requires Lawful(m)
    ensures LawfulResult(Sync(m, i, info, matches, voided)) && LawfulResult(Deauthorize(m, i, voided))
  {
    hide CriticalRule, InCharge, WithAccount, DeriveStatus;
    if i < |m.accounts| {
      assert BlockAgrees(m.technicians, m.accounts[i]);
      WithAccountKeeps(m, i, Synced(m.accounts[i], info, matches), voided);
      WithAccountKeeps(m, i, Deauthorized(m.accounts[i]), voided);
    }
  }

  lemma {:induction false} RunJobKeeps(m: Market, job: Job, n: nat)
    requires Lawful(m)
    ensures LawfulResult(RunJob(m, job, n))
  {
    hide Lawful, Act, Chore;
    if n == 0 {
    } else if RunJob(m, job, n - 1).Ok? {
      RunJobKeeps(m, job, n - 1);
      var before := RunJob(m, job, n - 1).value;
      if n <= |before.desks| && Chore(job, n - 1, before.desks[n - 1]).Some? {
        ActKeeps(before, n - 1, Chore(job, n - 1, before.desks[n - 1]).value);
      }
    }
  }

  lemma {:induction false} ReleaseClaimsKeeps(m: Market, stale: nat -> bool, n: nat)
    requires Lawful(m)
    ensures Lawful(ReleaseClaims(m, stale, n))
  {
    hide Lawful, WithStatus;
    if n == 0 {
    } else {
      ReleaseClaimsKeeps(m, stale, n - 1);
      ReviewKeeps(ReleaseClaims(m, stale, n - 1), n - 1, K.Submitted, K.Job, false);
    }
  }

  lemma StepKeeps(m: Market, op: Operation)
    requires Lawful(m)
    ensures Lawful(Step(m, op))
  {
    hide Lawful, WithStatus, Approve, TakeAway, ExpireUpTo, Deactivate, CreateAccount, Sync, Deauthorize,
        ReviewName, PlaceOrder, Act, RunJob, ReleaseClaims;
    match op {
      case Registering => RegisterKeeps(m);
      case Reviewing(t, to, actor, reason) =>
        if to != K.Approved && to != K.Suspended && to != K.Expired { ReviewKeeps(m, t, to, actor, reason); }
      case Approving(t, actor, complete) => ApproveKeeps(m, t, actor, complete);
      case Suspending(t, actor, voided) => TakeAwayKeeps(m, t, K.Suspended, actor, KycSuspended, voided);
      case Expiring(due, voided) => ExpireUpToKeeps(m, due, voided, |m.technicians|);
      case Deactivating(t, voided) => DeactivateKeeps(m, t, voided);
      case CreatingAccount(t, provider) => CreateAccountKeeps(m, t, provider);
      case Syncing(i, info, matches, voided) => SyncKeeps(m, i, info, matches, voided);
      case Deauthorizing(i, voided) => SyncKeeps(m, i, AccountInfo(true, true, true, true, true), None, voided);
      case ReviewingName(i, approve, voided) => ReviewNameKeeps(m, i, approve, voided);
      case Placing(client, requested, available) => PlaceKeeps(m, client, requested, available);
      case Acting(i, action) => ActKeeps(m, i, action);
      case Working(job) => RunJobKeeps(m, job, |m.desks|);
      case Unclaiming(stale) => ReleaseClaimsKeeps(m, stale, |m.technicians|);
    }
  }

  lemma {:induction false} RunKeeps(m: Market, ops: seq<Operation>)
    requires Lawful(m)
    ensures Lawful(Run(m, ops))
    decreases |ops|
  {
    hide Lawful, Step;
    if ops == [] {
    } else {
      StepKeeps(m, ops[0]);
      RunKeeps(Step(m, ops[0]), ops[1..]);
    }
  }

  // ---------------------------------------------------------------------------
  // Theorems
  // ---------------------------------------------------------------------------

  /**
   Whichever way eligibility was lost, on every run each order that is accepted or scheduled, and each
   reservation in the pool, belongs to a technician who is approved, active and payable.
   */
  lemma RunHoldsCriticalRule(ops: seq<Operation>)
    ensures var m := Run(EMPTY, ops);
            forall i :: 0 <= i < |m.desks| ==>
              var o := m.desks[i].order;
              && (O.PreStart(o.status) ==> o.technician.Some? && Eligible(m, o.technician.value))
              && (o.status == O.Requested && o.requested.Some? ==> Eligible(m, o.requested.value))
  {
    RunKeeps(EMPTY, ops);
    hide Run, Eligible, DT.Sound;
  }

  /**
   On every run a suspended or expired identity has all its accounts blocked for some reason, and an account
   blocked for its owner's identity belongs to an identity that is not approved.
   */
  lemma RunTracksBlocks(ops: seq<Operation>)
    ensures var m := Run(EMPTY, ops);
            forall i :: 0 <= i < |m.accounts| ==>
              && m.accounts[i].owner < |m.technicians|
              && (var status := m.technicians[m.accounts[i].owner].profile.status;
                  && (status == K.Suspended || status == K.Expired ==> m.accounts[i].blocked.Some?)
                  && (KycBlock(m.accounts[i].blocked) ==> status != K.Approved))
  {
    RunKeeps(EMPTY, ops);
    hide Run, CriticalRule;
    var m := Run(EMPTY, ops);
    forall i | 0 <= i < |m.accounts| ensures BlockAgrees(m.technicians, m.accounts[i]) {}
  }

  /** On every run each order is charged at most once, whoever held it along the way. */
  lemma RunKeepsOrdersSound(ops: seq<Operation>)
    ensures var m := Run(EMPTY, ops); forall i :: 0 <= i < |m.desks| ==> DT.Sound(m.desks[i])
  {
    RunKeeps(EMPTY, ops);
    hide Run, DT.Sound;
  }

  /**
   A suspension goes through exactly when the state may move and no reservation of an order to be let go is
   in process; then the technician holds nothing that has not started, and other orders are as they were.
   */
  lemma SuspensionLetsGo(m: Market, t: nat, actor: K.KycActor, voided: nat -> bool)
    ensures var r := Suspend(m, t, actor, voided);
            && (r.Ok? <==> WithStatus(m, t, K.Suspended, actor, true).Ok?
                           && forall i :: 0 <= i < |m.desks| ==> !(Held(m.desks[i], t) && Processing(m.desks[i])))
            && (r.Ok? ==> |r.value.desks| == |m.desks| && forall i :: 0 <= i < |m.desks| ==>
                  && !Held(r.value.desks[i], t)
                  && !(r.value.desks[i].order.status == O.Requested && r.value.desks[i].order.requested == Some(t))
                  && (m.desks[i].order.technician != Some(t) && m.desks[i].order.requested != Some(t) ==>
                        r.value.desks[i] == m.desks[i]))
  {
    hide K.Transition, Released, Processing;
    var r := Suspend(m, t, actor, voided);
    if r.Ok? {
      forall i | 0 <= i < |m.desks|
        ensures r.value.desks[i] == Released(m.desks[i], t, voided(i))
        ensures var o := r.value.desks[i].order;
                && !(O.PreStart(o.status) && o.technician == Some(t))
                && !(o.status == O.Requested && o.requested == Some(t))
        ensures m.desks[i].order.technician != Some(t) && m.desks[i].order.requested != Some(t) ==>
                  r.value.desks[i] == m.desks[i]
      {
        ReleasedIsFree(m.desks[i], t, voided(i));
      }
    }
  }

  /** What an account loses when it is written: it could be paid, and no longer can. */
  predicate Loses(before: Account, after: Account) {
    before.CanReceive() && !after.CanReceive()
  }

  lemma AccountLossLetsGo(m: Market, i: nat, a: Account, voided: nat -> bool)
    requires i < |m.accounts| && a.owner == m.accounts[i].owner
    ensures var r := WithAccount(m, i, a, voided);
            && (r.Ok? <==> !(Loses(m.accounts[i], a)
                             && exists k :: 0 <= k < |m.desks| && Held(m.desks[k], a.owner) && Processing(m.desks[k])))
            && (r.Ok? ==> r.value.accounts == m.accounts[i := a] && r.value.technicians == m.technicians)
            && (r.Ok? && !Loses(m.accounts[i], a) ==> r.value.desks == m.desks)
            && (r.Ok? && Loses(m.accounts[i], a) ==>
                  forall d :: d in r.value.desks ==>
                    && !Held(d, a.owner) && !(d.order.status == O.Requested && d.order.requested == Some(a.owner)))
  {
    hide Released, Processing, Held;
    var r := WithAccount(m, i, a, voided);
    if r.Ok? && Loses(m.accounts[i], a) {
      forall k | 0 <= k < |m.desks|
        ensures var d := r.value.desks[k];
                !Held(d, a.owner) && !(d.order.status == O.Requested && d.order.requested == Some(a.owner))
      {
        assert r.value.desks[k] == Released(m.desks[k], a.owner, voided(k));
        ReleasedHoldsNothing(m.desks[k], a.owner, voided(k));
      }
    }
  }

  lemma ReleasedHoldsNothing(d: D.Desk, t: nat, voided: bool)
    requires !(Held(d, t) && Processing(d))
    ensures var after := Released(d, t, voided);
            !Held(after, t) && !(after.order.status == O.Requested && after.order.requested == Some(t))
  {
    hide Released, Processing;
    ReleasedIsFree(d, t, voided);
  }

  /**
   A synchronised account can be paid afterwards exactly when the provider says so, its state leads there and
   nothing blocks it, a new name mismatch included. When it could be paid and no longer can, its owner is let go
   from every order that has not started, or the whole report fails on a reservation in process.
   */
  lemma SyncLetsGo(m: Market, i: nat, info: AccountInfo, matches: Option<bool>, voided: nat -> bool)
    requires i < |m.accounts|
    ensures var before := m.accounts[i];
            var payable := !info.rejected && info.transfers && info.payouts && !info.requirementsDue
                           && before.status != NotCreated && before.status != Disabled && before.blocked.None?
                           && !(matches == Some(false) && before.nameMatches != Some(false));
            var r := Sync(m, i, info, matches, voided);
            && (Synced(before, info, matches).CanReceive() <==> payable)
            && (r.Ok? <==> payable || !before.CanReceive()
                           || forall k :: 0 <= k < |m.desks| ==>
                                !(Held(m.desks[k], before.owner) && Processing(m.desks[k])))
            && (r.Ok? && (payable || !before.CanReceive()) ==> r.value.desks == m.desks)
            && (r.Ok? && before.CanReceive() && !payable ==>
                  forall d :: d in r.value.desks ==>
                    && !Held(d, before.owner)
                    && !(d.order.status == O.Requested && d.order.requested == Some(before.owner)))
  {
    hide WithAccount, Held, Processing;
    AccountLossLetsGo(m, i, Synced(m.accounts[i], info, matches), voided);
  }
}
