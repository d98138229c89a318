/**
 Technicians, their payment accounts and the orders: the operations that give, take away and depend on a
 technician's eligibility. Each operation is one transaction.
 */
module Marketplace {
  import opened Results
  import K = Kyc
  import O = Orders
  import P = Payments
  import D = Desk

  // ---------------------------------------------------------------------------
  // Payment accounts
  // ---------------------------------------------------------------------------

  datatype AccountStatus = NotCreated | Onboarding | PendingVerification | Enabled | Restricted | Disabled

  predicate AccountMoveAllowed(before: AccountStatus, after: AccountStatus) {
    match before
    case NotCreated => after == Onboarding
    case Onboarding => after in {PendingVerification, Enabled, Disabled}
    case PendingVerification => after in {Enabled, Onboarding, Disabled}
    case Enabled => after in {Restricted, Disabled}
    case Restricted => after in {Enabled, Disabled}
    case Disabled => false
  }

  datatype Block = KycSuspended | KycExpired | NameMismatch | NameRejected | ProviderDeauthorized

  predicate KycBlock(b: Option<Block>) {
    b == Some(KycSuspended) || b == Some(KycExpired)
  }

  datatype Account = Account(owner: nat, provider: nat, status: AccountStatus, blocked: Option<Block>,
      nameMatches: Option<bool>)
  {
    predicate CanReceive() {
      status == Enabled && blocked.None?
    }
  }

  datatype AccountInfo = AccountInfo(
    rejected: bool, transfers: bool, payouts: bool, requirementsDue: bool, submitted: bool)

  /** The platform's state for what the provider reports. */
  function DeriveStatus(current: AccountStatus, info: AccountInfo): AccountStatus {
    if info.rejected then Disabled
    else if info.transfers && info.payouts && !info.requirementsDue then Enabled
    else if current == Enabled || current == Restricted then Restricted
    else if info.submitted then PendingVerification
    else Onboarding
  }

  /** The account after the provider's report; a state that may not be reached from here is not taken. */
  function Synced(a: Account, info: AccountInfo, matches: Option<bool>): Account {
    var target := DeriveStatus(a.status, info);
    var mismatch := matches == Some(false) && a.nameMatches != Some(false);
    a.(status := if AccountMoveAllowed(a.status, target) then target else a.status,
       nameMatches := matches,
       blocked := if mismatch && a.blocked.None? then Some(NameMismatch) else a.blocked)
  }

  /** A block for the state of the identity does not overwrite a pending name review. */
  function BlockedForKyc(a: Account, technician: nat, reason: Block): Account {
    if a.owner == technician && (a.blocked.None? || KycBlock(a.blocked)) then a.(blocked := Some(reason)) else a
  }

  function UnblockedForKyc(a: Account, technician: nat): Account {
    if a.owner == technician && KycBlock(a.blocked) then a.(blocked := None) else a
  }

  function Deauthorized(a: Account): Account {
    if a.blocked.None? || KycBlock(a.blocked) || a.blocked == Some(NameMismatch)
        then a.(blocked := Some(ProviderDeauthorized))
    else a
  }

  /** The block that stays once a name is cleared: the one the state of the identity was hiding behind it. */
  function HiddenBlock(status: K.KycStatus): Option<Block> {
    if status == K.Suspended then Some(KycSuspended) else if status == K.Expired then Some(KycExpired) else None
  }

  // ---------------------------------------------------------------------------
  // The market
  // ---------------------------------------------------------------------------

  datatype Technician = Technician(profile: K.Profile, active: bool)

  datatype Market = Market(technicians: seq<Technician>, accounts: seq<Account>, desks: seq<D.Desk>)

  predicate Verified(m: Market, t: nat) {
    t < |m.technicians| && m.technicians[t].profile.status == K.Approved && m.technicians[t].active
  }

  predicate Payable(accounts: seq<Account>, t: nat) {
    exists i :: 0 <= i < |accounts| && accounts[i].owner == t && accounts[i].CanReceive()
  }

  /** The critical rule: identity approved, user active, and an account that can be paid. */
  predicate Eligible(m: Market, t: nat) {
    Verified(m, t) && Payable(m.accounts, t)
  }

  // ---------------------------------------------------------------------------
  // Letting a technician go
  // ---------------------------------------------------------------------------

  /** An order of the technician that has not started. */
  predicate Held(d: D.Desk, t: nat) {
    O.PreStart(d.order.status) && d.order.technician == Some(t)
  }

  predicate Processing(d: D.Desk) {
    D.Active(d.payments).Some? && d.payments[D.Active(d.payments).value].status == P.Processing
  }

  function LetGo(d: D.Desk, t: nat, voided: bool): Result<D.Desk> {
    if Held(d, t) then D.Release(d, voided) else Ok(d)
  }

  function Opened(d: D.Desk, t: nat): D.Desk {
    if d.order.status == O.Requested && d.order.requested == Some(t) then
      d.(order := d.order.(requested := None, version := d.order.version + 1))
    else d
  }

  /** The desk once the technician was let go from it: back in the pool, and open to everybody. */
  function Released(d: D.Desk, t: nat, voided: bool): D.Desk {
    var r := LetGo(d, t, voided);
    Opened(if r.Ok? then r.value else d, t)
  }

  /** All the technician's orders at once; one reservation in process makes the whole release fail. */
  function ReleaseAll(desks: seq<D.Desk>, t: nat, voided: nat -> bool): Result<seq<D.Desk>> {
    if exists i :: 0 <= i < |desks| && Held(desks[i], t) && Processing(desks[i]) then Err(InvalidTransition)
    else Ok(seq(|desks|, i requires 0 <= i < |desks| => Released(desks[i], t, voided(i))))
  }

  /** A desk is let go exactly when no reservation of it is in process. */
  lemma LetGoFails(d: D.Desk, t: nat, voided: bool)
    ensures LetGo(d, t, voided).Err? <==> Held(d, t) && Processing(d)
    ensures LetGo(d, t, voided).Err? ==> LetGo(d, t, voided).error == InvalidTransition
  {
    assert O.System in O.Caps(O.Job, d.order, O.Requested) * {O.Technician, O.System};
  }

  // ---------------------------------------------------------------------------
  // Operations
  // ---------------------------------------------------------------------------

  function WithStatus(m: Market, t: nat, to: K.KycStatus, actor: K.KycActor, reason: bool): Result<Market> {
    if t >= |m.technicians| then Err(NotFound)
    else
      var profile :- K.Transition(m.technicians[t].profile, t, to, actor, reason);
      Ok(m.(technicians := m.technicians[t := m.technicians[t].(profile := profile)]))
  }

  function WithDesks(m: Market, t: nat, voided: nat -> bool): Result<Market> {
    var desks :- ReleaseAll(m.desks, t, voided);
    Ok(m.(desks := desks))
  }

  function BlockForKyc(m: Market, t: nat, reason: Block): Market {
    m.(accounts := seq(|m.accounts|, i requires 0 <= i < |m.accounts| => BlockedForKyc(m.accounts[i], t, reason)))
  }

  function UnblockForKyc(m: Market, t: nat): Market {
    m.(accounts := seq(|m.accounts|, i requires 0 <= i < |m.accounts| => UnblockedForKyc(m.accounts[i], t)))
  }

  function Approve(m: Market, t: nat, actor: K.KycActor, complete: bool): Result<Market> {
    if !complete then Err(NotEligible)
    else
      var moved :- WithStatus(m, t, K.Approved, actor, false);
      Ok(UnblockForKyc(moved, t))
  }

  /** Suspension and expiry: the state moves, the orders are let go, and the accounts are blocked. */
  function TakeAway(m: Market, t: nat, to: K.KycStatus, actor: K.KycActor, reason: Block,
      voided: nat -> bool): Result<Market> {
    var moved :- WithStatus(m, t, to, actor, true);
    var freed :- WithDesks(moved, t, voided);
    Ok(BlockForKyc(freed, t, reason))
  }

  function Suspend(m: Market, t: nat, actor: K.KycActor, voided: nat -> bool): Result<Market> {
    TakeAway(m, t, K.Suspended, actor, KycSuspended, voided)
  }

  function Expire(m: Market, t: nat, voided: nat -> bool): Result<Market> {
    TakeAway(m, t, K.Expired, K.Job, KycExpired, voided)
  }

  /** The nightly job over the first `n` technicians: those approved and due expire, each with its orders. */
  function ExpireUpTo(m: Market, due: nat -> bool, voided: nat -> bool, n: nat): Result<Market> {
    if n == 0 then Ok(m)
    else
      var before :- ExpireUpTo(m, due, voided, n - 1);
      if n <= |before.technicians| && before.technicians[n - 1].profile.status == K.Approved && due(n - 1) then
        Expire(before, n - 1, voided)
      else Ok(before)
  }

  function Deactivate(m: Market, t: nat, voided: nat -> bool): Result<Market> {
    if t >= |m.technicians| then Err(NotFound)
    else WithDesks(m.(technicians := m.technicians[t := m.technicians[t].(active := false)]), t, voided)
  }

  function CreateAccount(m: Market, t: nat, provider: nat): Result<Market> {
    if t >= |m.technicians| || m.technicians[t].profile.status != K.Approved then Err(NotEligible)
    else if exists i :: 0 <= i < |m.accounts| && m.accounts[i].owner == t && m.accounts[i].provider == provider then
      Err(ConstraintViolation)
    else Ok(m.(accounts := m.accounts + [Account(t, provider, Onboarding, None, None)]))
  }

  /** Writes an account; when it could be paid and no longer can, its owner's orders are let go. */
  function WithAccount(m: Market, i: nat, a: Account, voided: nat -> bool): Result<Market>
    requires i < |m.accounts|
  {
    var written := m.(accounts := m.accounts[i := a]);
    if m.accounts[i].CanReceive() && !a.CanReceive() then WithDesks(written, a.owner, voided) else Ok(written)
  }

  function Sync(m: Market, i: nat, info: AccountInfo, matches: Option<bool>, voided: nat -> bool): Result<Market> {
    if i >= |m.accounts| then Err(NotFound) else WithAccount(m, i, Synced(m.accounts[i], info, matches), voided)
  }

  function Deauthorize(m: Market, i: nat, voided: nat -> bool): Result<Market> {
    if i >= |m.accounts| then Err(NotFound) else WithAccount(m, i, Deauthorized(m.accounts[i]), voided)
  }

  function ReviewName(m: Market, i: nat, approve: bool, voided: nat -> bool): Result<Market> {
    if i >= |m.accounts| then Err(NotFound)
    else
      var a := m.accounts[i];
      if a.blocked != Some(NameMismatch) then Err(NotPending)
      else if approve then
        var hidden := if a.owner < |m.technicians| then HiddenBlock(m.technicians[a.owner].profile.status) else None;
        Ok(m.(accounts := m.accounts[i := a.(blocked := hidden, nameMatches := Some(true))]))
      else WithDesks(m.(accounts := m.accounts[i := a.(blocked := Some(NameRejected))]), a.owner, voided)
  }

  function PlaceOrder(m: Market, client: nat, requested: Option<nat>, available: bool): Result<Market> {
    if requested.Some? && !(available && Eligible(m, requested.value)) then Err(NotEligible)
    else Ok(m.(desks := m.desks + [D.NewDesk(client, requested)]))
  }

  /** A use case with what it may assume of its technician filled in from the market. */
  function Checked(m: Market, action: D.Action): D.Action {
    match action
    case Accepting(t, price, free) => D.Accepting(t, price, free && Eligible(m, t))
    case Scheduling(t, free, terms, taxes) => D.Scheduling(t, free && Eligible(m, t), terms, taxes)
    case Departing(t, ready, answer) => D.Departing(t, ready && Payable(m.accounts, t), answer)
    case Starting(t, _) => D.Starting(t, Verified(m, t))
    case _ => action
  }

  function Act(m: Market, i: nat, action: D.Action): Result<Market> {
    if i >= |m.desks| || action.Releasing? then Err(NotFound)
    else
      var desk :- D.Do(m.desks[i], Checked(m, action));
      Ok(m.(desks := m.desks[i := desk]))
  }

  // ---------------------------------------------------------------------------
  // Jobs over the orders
  // ---------------------------------------------------------------------------

  datatype Job =
    | CaptureDue(captured: nat -> Option<P.Report>)
    | CaptureBeforeDeadline(due: nat -> bool, captured: nat -> Option<P.Report>)
    | RetryApproved(sent: nat -> P.RefundAnswer)
    | AutoApprove(due: nat -> bool)
    | ExpireRequests(due: nat -> bool)

  /** The first refund of a payment that is approved and was not sent. */
  function ApprovedRefund(refunds: seq<P.Refund>): (k: nat)
    ensures k <= |refunds| && (k < |refunds| ==> refunds[k].status == P.Approved)
    ensures forall j :: 0 <= j < k ==> refunds[j].status != P.Approved
  {
    if refunds == [] then 0
    else
      var k := ApprovedRefund(refunds[..|refunds| - 1]);
      if k < |refunds| - 1 || refunds[k].status == P.Approved then k else |refunds|
  }

  /** What a job does with one order, if anything. */
  function Chore(job: Job, i: nat, d: D.Desk): Option<D.Action> {
    var a := D.Active(d.payments);
    var authorized := a.Some? && d.payments[a.value].status == P.Authorized;
    match job
    case CaptureDue(captured) =>
      if authorized && d.order.status == O.Completed then
        Some(D.ToPayment(a.value, P.FullCapture(captured(i))))
      else
        None
    case CaptureBeforeDeadline(due, captured) =>
      if !authorized || !due(i) then None
      else if d.order.status == O.AwaitingApproval then Some(D.AutoApproving)
      else if d.order.status == O.Disputed then Some(D.ToPayment(a.value, P.FullCapture(captured(i))))
      else None
    case RetryApproved(sent) =>
      if a.None? then None
      else
        var k := ApprovedRefund(d.payments[a.value].refunds);
        if k < |d.payments[a.value].refunds| then Some(D.ToPayment(a.value, P.Retry(k, sent(i)))) else None
    case AutoApprove(due) => if due(i) && d.order.status == O.AwaitingApproval then Some(D.AutoApproving) else None
    case ExpireRequests(due) => if due(i) && d.order.status == O.Requested then Some(D.Expiring) else None
  }

  /** One order of a job; a provider that does not answer leaves it for the next round. */
  function DoChore(m: Market, job: Job, i: nat): Result<Market> {
    if i >= |m.desks| || Chore(job, i, m.desks[i]).None? then Ok(m)
    else
      var r := Act(m, i, Chore(job, i, m.desks[i]).value);
      if r == Err(ProviderUnavailable) then Ok(m) else r
  }

  /** A job over the first `n` orders. */
  function RunJob(m: Market, job: Job, n: nat): Result<Market> {
    if n == 0 then Ok(m)
    else
      var before :- RunJob(m, job, n - 1);
      DoChore(before, job, n - 1)
  }

  /** Abandoned reviews go back to the queue; a case that may not is skipped. */
  function ReleaseClaims(m: Market, stale: nat -> bool, n: nat): Market {
    if n == 0 then m
    else
      var before := ReleaseClaims(m, stale, n - 1);
      if n <= |before.technicians| && before.technicians[n - 1].profile.status == K.UnderReview && stale(n - 1) then
        var moved := WithStatus(before, n - 1, K.Submitted, K.Job, false);
        if moved.Ok? then moved.value else before
      else before
  }

  datatype Operation =
    | Registering
    | Reviewing(technician: nat, to: K.KycStatus, actor: K.KycActor, reason: bool)
    | Approving(technician: nat, actor: K.KycActor, complete: bool)
    | Suspending(technician: nat, actor: K.KycActor, voided: nat -> bool)
    | Expiring(due: nat -> bool, voided: nat -> bool)
    | Deactivating(technician: nat, voided: nat -> bool)
    | CreatingAccount(technician: nat, provider: nat)
    | Syncing(account: nat, info: AccountInfo, matches: Option<bool>, voided: nat -> bool)
    | Deauthorizing(account: nat, voided: nat -> bool)
    | ReviewingName(account: nat, approve: bool, voided: nat -> bool)
    | Placing(client: nat, requested: Option<nat>, available: bool)
    | Acting(desk: nat, action: D.Action)
    | Working(job: Job)
    | Unclaiming(stale: nat -> bool)

  function Do(m: Market, op: Operation): Result<Market> {
    match op
    case Registering => Ok(m.(technicians := m.technicians + [Technician(K.Profile(K.NotStarted, None, 0, 0), true)]))
    case Reviewing(t, to, actor, reason) =>
      if to == K.Approved || to == K.Suspended || to == K.Expired then Err(InvalidTransition)
          else WithStatus(m, t, to, actor, reason)
    case Approving(t, actor, complete) => Approve(m, t, actor, complete)
    case Suspending(t, actor, voided) => Suspend(m, t, actor, voided)
    case Expiring(due, voided) => ExpireUpTo(m, due, voided, |m.technicians|)
    case Deactivating(t, voided) => Deactivate(m, t, voided)
    case CreatingAccount(t, provider) => CreateAccount(m, t, provider)
    case Syncing(i, info, matches, voided) => Sync(m, i, info, matches, voided)
    case Deauthorizing(i, voided) => Deauthorize(m, i, voided)
    case ReviewingName(i, approve, voided) => ReviewName(m, i, approve, voided)
    case Placing(client, requested, available) => PlaceOrder(m, client, requested, available)
    case Acting(i, action) => Act(m, i, action)
    case Working(job) => RunJob(m, job, |m.desks|)
    case Unclaiming(stale) => Ok(ReleaseClaims(m, stale, |m.technicians|))
  }

  function Step(m: Market, op: Operation): Market {
    var r := Do(m, op);
    if r.Ok? then r.value else m
  }

  function Run(m: Market, ops: seq<Operation>): Market
    decreases |ops|
  {
    if ops == [] then m else Run(Step(m, ops[0]), ops[1..])
  }

  const EMPTY := Market([], [], [])
}
