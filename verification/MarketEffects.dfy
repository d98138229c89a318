/** What may change an account, who may become eligible, and what a round of a job does to each order. */
module MarketEffects {
  import opened Results
  import K = Kyc
  import O = Orders
  import P = Payments
  import I = PaymentInvariants
  import E = PaymentEffects
  import D = Desk
  import DT = DeskTheorems
  import M = MarketTheorems
  import opened Marketplace

  // ---------------------------------------------------------------------------
  // Every change of an account
  // ---------------------------------------------------------------------------

  /** The provider reports an account that can be paid. */
  predicate PayableReport(info: AccountInfo) {
    !info.rejected && info.transfers && info.payouts && !info.requirementsDue
  }

  /** Blocks that the state of an identity may take the place of. */
  predicate Yielding(b: Option<Block>) {
    b.None? || b == Some(KycSuspended) || b == Some(KycExpired)
  }

  /** The only ways a block changes: which operation, on whom, from what and to what. */
  predicate BlockExplained(op: Operation, i: nat, a: Account, b: Account) {
    match op
    case Approving(t, _, _) => a.owner == t && a.blocked.Some? && Yielding(a.blocked) && b.blocked.None?
    case Suspending(t, _, _) => a.owner == t && Yielding(a.blocked) && b.blocked == Some(KycSuspended)
    case Expiring(due, _) => due(a.owner) && Yielding(a.blocked) && b.blocked == Some(KycExpired)
    case Syncing(k, _, matches, _) =>
      k == i && a.blocked.None? && matches == Some(false) && b.blocked == Some(NameMismatch)
    case Deauthorizing(k, _) =>
      k == i && (Yielding(a.blocked) || a.blocked == Some(NameMismatch)) && b.blocked == Some(ProviderDeauthorized)
    case ReviewingName(k, approve, _) =>
      k == i && a.blocked == Some(NameMismatch)
      && if approve then Yielding(b.blocked) else b.blocked == Some(NameRejected)
    case _ => false
  }

  /** An account keeps its owner and its provider; its block and its state change only for a reason of their own. */
  predicate AccountExplained(op: Operation, i: nat, a: Account, b: Account) {
    && b.owner == a.owner && b.provider == a.provider
    && (b.blocked != a.blocked ==> BlockExplained(op, i, a, b))
    && (b.status != a.status ==> op.Syncing? && op.account == i && AccountMoveAllowed(a.status, b.status))
  }

  predicate AccountsExplained(op: Operation, before: seq<Account>, after: seq<Account>) {
    && |before| <= |after|
    && forall i :: 0 <= i < |before| ==> AccountExplained(op, i, before[i], after[i])
  }

  /** A suspension or an expiry blocks the accounts of the technician for its own reason, unless another one holds. */
  lemma TakeAwayBlocks(m: Market, t: nat, to: K.KycStatus, actor: K.KycActor, reason: Block, voided: nat -> bool)
    requires TakeAway(m, t, to, actor, reason, voided).Ok?
    ensures var after := TakeAway(m, t, to, actor, reason, voided).value;
            && |after.accounts| == |m.accounts|
            && forall i :: 0 <= i < |m.accounts| ==>
                 after.accounts[i] == if m.accounts[i].owner == t && Yielding(m.accounts[i].blocked)
                     then m.accounts[i].(blocked := Some(reason)) else m.accounts[i]
  {
    hide ReleaseAll, K.Transition;
  }

  lemma {:induction false} ExpiryBlocks(m: Market, due: nat -> bool, voided: nat -> bool, n: nat)
    requires ExpireUpTo(m, due, voided, n).Ok?
    ensures var after := ExpireUpTo(m, due, voided, n).value;
            && |after.accounts| == |m.accounts|
            && forall i :: 0 <= i < |m.accounts| ==>
                 after.accounts[i] == m.accounts[i]
                 || (due(m.accounts[i].owner) && Yielding(m.accounts[i].blocked)
                     && after.accounts[i] == m.accounts[i].(blocked := Some(KycExpired)))
  {
    hide TakeAway;
    if n == 0 {
    } else {
      ExpiryBlocks(m, due, voided, n - 1);
      var before := ExpireUpTo(m, due, voided, n - 1).value;
      if n <= |before.technicians| && before.technicians[n - 1].profile.status == K.Approved && due(n - 1) {
        TakeAwayBlocks(before, n - 1, K.Expired, K.Job, KycExpired, voided);
      }
    }
  }

  lemma {:induction false} JobKeepsAccounts(m: Market, job: Job, n: nat)
    ensures var r := RunJob(m, job, n); r.Ok? ==> r.value.accounts == m.accounts && r.value.technicians == m.technicians
  {
    hide D.Do, Chore, Checked;
    if n == 0 {
    } else {
      JobKeepsAccounts(m, job, n - 1);
    }
  }

  lemma {:induction false} ClaimsKeepAccounts(m: Market, stale: nat -> bool, n: nat)
    ensures ReleaseClaims(m, stale, n).accounts == m.accounts
  {
    hide K.Transition;
    if n == 0 {
    } else {
      ClaimsKeepAccounts(m, stale, n - 1);
    }
  }

  lemma StepExplainsAccounts(m: Market, op: Operation)
    ensures AccountsExplained(op, m.accounts, Step(m, op).accounts)
  {
    hide K.Transition, ReleaseAll, TakeAway, ExpireUpTo, RunJob, ReleaseClaims, D.Do, Checked, DeriveStatus, Eligible;
    match op {
      case Suspending(t, actor, voided) =>
        if Suspend(m, t, actor, voided).Ok? { TakeAwayBlocks(m, t, K.Suspended, actor, KycSuspended, voided); }
      case Expiring(due, voided) =>
        if ExpireUpTo(m, due, voided, |m.technicians|).Ok? { ExpiryBlocks(m, due, voided, |m.technicians|); }
      case Working(job) => JobKeepsAccounts(m, job, |m.desks|);
      case Unclaiming(stale) => ClaimsKeepAccounts(m, stale, |m.technicians|);
      case _ =>
    }
  }

  /** Only an approved technician opens an account, one with each provider, and it cannot be paid yet. */
  lemma AccountOpens(m: Market, t: nat, provider: nat)
    ensures var r := CreateAccount(m, t, provider);
            && (r.Ok? <==> t < |m.technicians| && m.technicians[t].profile.status == K.Approved
                           && forall a :: a in m.accounts ==> !(a.owner == t && a.provider == provider))
            && (r.Ok? ==> r.value == m.(accounts := m.accounts + [Account(t, provider, Onboarding, None, None)]))
  {
    if t < |m.technicians| && m.technicians[t].profile.status == K.Approved && CreateAccount(m, t, provider).Err? {
      var i :| 0 <= i < |m.accounts| && m.accounts[i].owner == t && m.accounts[i].provider == provider;
      assert m.accounts[i] in m.accounts;
    }
  }

  ghost predicate OneAccountEach(accounts: seq<Account>) {
    forall i, j :: 0 <= i < j < |accounts| ==>
                     !(accounts[i].owner == accounts[j].owner && accounts[i].provider == accounts[j].provider)
  }

  lemma OnlyCreationAdds(m: Market, op: Operation)
    ensures !op.CreatingAccount? ==> |Step(m, op).accounts| == |m.accounts|
  {
    hide K.Transition, ReleaseAll, TakeAway, ExpireUpTo, RunJob, ReleaseClaims, D.Do, Checked, Eligible;
    match op {
      case Suspending(t, actor, voided) =>
        if Suspend(m, t, actor, voided).Ok? { TakeAwayBlocks(m, t, K.Suspended, actor, KycSuspended, voided); }
      case Expiring(due, voided) =>
        if ExpireUpTo(m, due, voided, |m.technicians|).Ok? { ExpiryBlocks(m, due, voided, |m.technicians|); }
      case Working(job) => JobKeepsAccounts(m, job, |m.desks|);
      case Unclaiming(stale) => ClaimsKeepAccounts(m, stale, |m.technicians|);
      case _ =>
    }
  }

  /** On every run a technician has at most one account with each provider. */
  lemma {:induction false} RunKeepsOneAccount(m: Market, ops: seq<Operation>)
    requires OneAccountEach(m.accounts)
    ensures OneAccountEach(Run(m, ops).accounts)
    decreases |ops|
  {
    if ops == [] {
    } else {
      StepKeepsOneAccount(m, ops[0]);
      RunKeepsOneAccount(Step(m, ops[0]), ops[1..]);
    }
    hide Step, OneAccountEach;
  }

  lemma StepKeepsOneAccount(m: Market, op: Operation)
    requires OneAccountEach(m.accounts)
    ensures OneAccountEach(Step(m, op).accounts)
  {
    hide CreateAccount, Step;
    StepExplainsAccounts(m, op);
    OnlyCreationAdds(m, op);
    if op.CreatingAccount? {
      AccountOpens(m, op.technician, op.provider);
      CreationSteps(m, op.technician, op.provider);
    }
  }

  lemma CreationSteps(m: Market, t: nat, provider: nat)
    ensures var r := CreateAccount(m, t, provider);
            Step(m, CreatingAccount(t, provider)) == if r.Ok? then r.value else m
  {
    hide CreateAccount;
  }

  // ---------------------------------------------------------------------------
  // Blocks over every run
  // ---------------------------------------------------------------------------

  /** Blocks that no operation of the platform lifts. */
  predicate Lasting(b: Option<Block>) {
    b == Some(NameRejected) || b == Some(ProviderDeauthorized)
  }

  /**
   An account whose name was rejected, or that the provider deauthorized, keeps exactly that block over every run:
   neither a new approval of the identity, nor its expiry, nor a report of the provider takes its place.
   */
  lemma {:induction false} RunKeepsLastingBlocks(m: Market, ops: seq<Operation>, i: nat)
    requires i < |m.accounts| && Lasting(m.accounts[i].blocked)
    ensures var after := Run(m, ops);
            && i < |after.accounts| && !after.accounts[i].CanReceive()
            && after.accounts[i].blocked == m.accounts[i].blocked
    decreases |ops|
  {
    hide Step;
    if ops == [] {
    } else {
      StepExplainsAccounts(m, ops[0]);
      assert AccountExplained(ops[0], i, m.accounts[i], Step(m, ops[0]).accounts[i]);
      RunKeepsLastingBlocks(Step(m, ops[0]), ops[1..], i);
    }
  }

  /** The operations that settle a name review of one account. */
  predicate Settles(op: Operation, i: nat) {
    (op.ReviewingName? || op.Deauthorizing?) && op.account == i
  }

  /** A name mismatch blocks the account until somebody reviews the name or the provider deauthorizes it. */
  lemma {:induction false} RunKeepsNameMismatch(m: Market, ops: seq<Operation>, i: nat)
    requires i < |m.accounts| && m.accounts[i].blocked == Some(NameMismatch)
    requires forall op :: op in ops ==> !Settles(op, i)
    ensures var after := Run(m, ops); i < |after.accounts| && after.accounts[i].blocked == Some(NameMismatch)
    decreases |ops|
  {
    hide Step;
    if ops == [] {
    } else {
      assert ops[0] in ops;
      StepExplainsAccounts(m, ops[0]);
      assert AccountExplained(ops[0], i, m.accounts[i], Step(m, ops[0]).accounts[i]);
      RunKeepsNameMismatch(Step(m, ops[0]), ops[1..], i);
    }
  }

  /** An approval lifts exactly the blocks that the state of this identity put, and touches nothing else. */
  lemma ApprovalUnblocks(m: Market, t: nat, actor: K.KycActor, complete: bool)
    requires Approve(m, t, actor, complete).Ok?
    ensures var after := Approve(m, t, actor, complete).value;
            && complete && t < |m.technicians| && after.desks == m.desks && |after.accounts| == |m.accounts|
            && after.technicians == m.technicians[t := after.technicians[t]]
            && after.technicians[t].profile.status == K.Approved
            && after.technicians[t].active == m.technicians[t].active
            && forall i :: 0 <= i < |m.accounts| ==>
                 after.accounts[i]
                 == if m.accounts[i].owner == t && m.accounts[i].blocked in {Some(KycSuspended), Some(KycExpired)}
                    then m.accounts[i].(blocked := None) else m.accounts[i]
  {
    K.StatusReached(m.technicians[t].profile, t, K.Approved, actor, false);
    hide K.Transition;
  }

  /**
   A name review is settled exactly while it is pending. Clearing the name brings back the block that the state of the
   identity was hiding behind it; rejecting it blocks the account for good.
   */
  lemma NameReviewSettles(m: Market, i: nat, approve: bool, voided: nat -> bool)
    requires i < |m.accounts| && m.accounts[i].owner < |m.technicians|
    ensures var r, a := ReviewName(m, i, approve, voided), m.accounts[i];
            var status := m.technicians[a.owner].profile.status;
            && (r.Ok? ==> a.blocked == Some(NameMismatch) && |r.value.accounts| == |m.accounts|
                          && (forall k :: 0 <= k < |m.accounts| && k != i ==> r.value.accounts[k] == m.accounts[k])
                          && r.value.accounts[i].blocked
                             == if !approve then Some(NameRejected)
                                else if status == K.Suspended then Some(KycSuspended)
                                else if status == K.Expired then Some(KycExpired) else None)
            && (approve && a.blocked == Some(NameMismatch) ==> r.Ok? && r.value.accounts[i].nameMatches == Some(true))
  {
    hide ReleaseAll;
  }

  /** A deauthorized account cannot be paid; a rejected name stays the reason when there is one. */
  lemma DeauthorizationBlocks(m: Market, i: nat, voided: nat -> bool)
    requires i < |m.accounts| && Deauthorize(m, i, voided).Ok?
    ensures var after := Deauthorize(m, i, voided).value;
            |after.accounts| == |m.accounts|
            && after.accounts[i].blocked == if m.accounts[i].blocked == Some(NameRejected) then Some(NameRejected)
                                            else Some(ProviderDeauthorized)
  {
    hide ReleaseAll;
    var blocked := m.accounts[i].blocked;
    assert blocked.None? || KycBlock(blocked) || Lasting(blocked) || blocked.value.NameMismatch?;
  }

  /** What the provider's report comes to: rejected, payable, restricted once it was enabled, or still on its way. */
  function Reported(before: AccountStatus, info: AccountInfo): AccountStatus {
    if info.rejected then Disabled
    else if PayableReport(info) then Enabled
    else match before
      case Enabled | Restricted => Restricted
      case NotCreated | Onboarding | PendingVerification | Disabled =>
        if info.submitted then PendingVerification else Onboarding
  }

  /** A report takes the account where it says if the table lets it, notes the name's verdict, and blocks a mismatch. */
  lemma SyncWrites(m: Market, i: nat, info: AccountInfo, matches: Option<bool>, voided: nat -> bool)
    requires i < |m.accounts| && Sync(m, i, info, matches, voided).Ok?
    ensures var a, after := m.accounts[i], Sync(m, i, info, matches, voided).value;
            var to := Reported(a.status, info);
            && |after.accounts| == |m.accounts| && after.technicians == m.technicians
            && (forall k :: 0 <= k < |m.accounts| && k != i ==> after.accounts[k] == m.accounts[k])
            && after.accounts[i]
               == a.(status := if AccountMoveAllowed(a.status, to) then to else a.status, nameMatches := matches,
                     blocked := if a.blocked.None? && matches == Some(false) && a.nameMatches != Some(false)
                                then Some(NameMismatch) else a.blocked)
  {
    hide ReleaseAll, AccountMoveAllowed;
  }

  /** A round of expiries takes every identity that was approved and due; the others keep their state. */
  lemma {:induction false} ExpiryExpires(m: Market, due: nat -> bool, voided: nat -> bool, n: nat, t: nat)
    requires ExpireUpTo(m, due, voided, n).Ok? && t < |m.technicians|
    ensures var after := ExpireUpTo(m, due, voided, n).value;
            && t < |after.technicians| && after.technicians[t].active == m.technicians[t].active
            && after.technicians[t].profile.status
               == if t < n && due(t) && m.technicians[t].profile.status == K.Approved then K.Expired
                  else m.technicians[t].profile.status
  {
    hide TakeAway;
    if n == 0 {
    } else {
      ExpiryExpires(m, due, voided, n - 1, t);
      var before := ExpireUpTo(m, due, voided, n - 1).value;
      if n <= |before.technicians| && before.technicians[n - 1].profile.status == K.Approved && due(n - 1) {
        TakeAwayMoves(before, n - 1, K.Expired, K.Job, KycExpired, voided);
      }
    }
  }

  lemma TakeAwayMoves(m: Market, t: nat, to: K.KycStatus, actor: K.KycActor, reason: Block, voided: nat -> bool)
    requires TakeAway(m, t, to, actor, reason, voided).Ok?
    ensures var after := TakeAway(m, t, to, actor, reason, voided).value;
            && t < |m.technicians| && after.technicians == m.technicians[t := after.technicians[t]]
            && after.technicians[t].active == m.technicians[t].active && after.technicians[t].profile.status == to
  {
    if t < |m.technicians| { K.StatusReached(m.technicians[t].profile, t, to, actor, true); }
    hide K.Transition, ReleaseAll;
  }

  /** A round over abandoned reviews returns exactly the stale ones to the queue, with nobody in charge. */
  lemma {:induction false} StaleClaimsReturn(m: Market, stale: nat -> bool, n: nat, t: nat)
    requires t < |m.technicians|
    ensures var after, p := ReleaseClaims(m, stale, n), m.technicians[t].profile;
            && after == m.(technicians := after.technicians) && |after.technicians| == |m.technicians|
            && after.technicians[t]
               == m.technicians[t].(profile := if t < n && stale(t) && p.status == K.UnderReview
                      then K.Profile(K.Submitted, None, p.cycle, p.version + 1) else p)
  {
    hide WithStatus;
    if n == 0 {
    } else {
      StaleClaimsReturn(m, stale, n - 1, t);
      var before := ReleaseClaims(m, stale, n - 1);
      if n <= |m.technicians| && before.technicians[n - 1].profile.status == K.UnderReview {
        ClaimReturns(before, n - 1);
      }
    }
  }

  lemma ClaimReturns(m: Market, t: nat)
    requires t < |m.technicians| && m.technicians[t].profile.status == K.UnderReview
    ensures var p := m.technicians[t].profile;
            WithStatus(m, t, K.Submitted, K.Job, false)
            == Ok(m.(technicians := m.technicians[t := m.technicians[t].(profile :=
                   K.Profile(K.Submitted, None, p.cycle, p.version + 1))]))
  {
    assert K.System in K.Capacities(K.Job, t) * K.AllowedTo(K.UnderReview, K.Submitted);
  }

  /** Deactivating a user takes their orders that have not started, or fails on a reservation in process. */
  lemma DeactivationLetsGo(m: Market, t: nat, voided: nat -> bool)
    requires t < |m.technicians|
    ensures var r := Deactivate(m, t, voided);
            && (r.Ok? <==> forall i :: 0 <= i < |m.desks| ==> !(Held(m.desks[i], t) && Processing(m.desks[i])))
            && (r.Ok? ==>
                  && r.value.technicians == m.technicians[t := m.technicians[t].(active := false)]
                  && r.value.accounts == m.accounts && !Verified(r.value, t) && |r.value.desks| == |m.desks|
                  && forall i :: 0 <= i < |m.desks| ==>
                       && !Held(r.value.desks[i], t)
                       && !(r.value.desks[i].order.status == O.Requested
                            && r.value.desks[i].order.requested == Some(t)))
  {
    hide Processing, Released, Held;
    var r := Deactivate(m, t, voided);
    if r.Ok? {
      forall i | 0 <= i < |m.desks|
        ensures r.value.desks[i] == Released(m.desks[i], t, voided(i))
        ensures !(Held(m.desks[i], t) && Processing(m.desks[i]))
      {}
      forall i | 0 <= i < |m.desks|
        ensures var d := r.value.desks[i];
                !Held(d, t) && !(d.order.status == O.Requested && d.order.requested == Some(t))
      {
        M.ReleasedHoldsNothing(m.desks[i], t, voided(i));
      }
    }
  }

  /** What an action needs of its technician, at the moment it is taken. */
  predicate Entitled(m: Market, action: D.Action, payment: P.PaymentStatus) {
    match action
    case Accepting(t, _, _) => Eligible(m, t)
    case Scheduling(t, _, _, _) => Eligible(m, t)
    case Departing(t, _, _) => payment == P.Pending ==> Payable(m.accounts, t)
    case Starting(t, _) => Verified(m, t)
    case _ => true
  }

  /**
   An order is accepted and scheduled only by an eligible technician, its money is reserved only for a payable one, and
   its work starts only with one whose identity is still approved.
   */
  lemma ActionsNeedEntitlement(m: Market, i: nat, action: D.Action)
    requires i < |m.desks| && D.Active(m.desks[i].payments).Some? && Act(m, i, action).Ok?
    ensures Entitled(m, action, m.desks[i].payments[D.Active(m.desks[i].payments).value].status)
    ensures action != D.Releasing(true) && action != D.Releasing(false)
  {
    hide Eligible, Payable, Verified, D.MoveOrder, D.OnPayment, D.CreateForOrder;
    hide D.Resolve, D.CancelByClient, D.Review, D.Withdraw, D.Approve, D.AskRefund;
  }

  /** An order is reserved for a technician only while that technician is available and eligible. */
  lemma PlacedForEligible(m: Market, client: nat, requested: Option<nat>, available: bool)
    ensures var r := PlaceOrder(m, client, requested, available);
            && (r.Ok? <==> requested.None? || (available && Eligible(m, requested.value)))
            && (r.Ok? ==> r.value == m.(desks := r.value.desks) && |r.value.desks| == |m.desks| + 1
                          && r.value.desks[..|m.desks|] == m.desks
                          && var d := r.value.desks[|m.desks|];
                          && d.payments == [] && d.order.client == client && d.order.status == O.Requested
                          && d.order.requested == requested && d.order.technician.None? && !d.order.reviewed)
  {
    hide Eligible;
  }

  // ---------------------------------------------------------------------------
  // Who becomes eligible
  // ---------------------------------------------------------------------------

  /** The operations that can make a technician eligible. */
  predicate Qualifies(m: Market, op: Operation, t: nat) {
    match op
    case Approving(u, _, complete) => u == t && complete
    case Syncing(i, info, _, _) => i < |m.accounts| && m.accounts[i].owner == t && PayableReport(info)
    case ReviewingName(i, approve, _) => i < |m.accounts| && m.accounts[i].owner == t && approve
    case _ => false
  }

  lemma StatusNotApproved(m: Market, t: nat, to: K.KycStatus, actor: K.KycActor, reason: bool, u: nat)
    requires to != K.Approved
    ensures var r := WithStatus(m, t, to, actor, reason); r.Ok? && Verified(r.value, u) ==> Verified(m, u)
  {
    if t < |m.technicians| { K.StatusReached(m.technicians[t].profile, t, to, actor, reason); }
    hide K.Transition;
  }

  lemma TakeAwayNotVerifies(m: Market, t: nat, to: K.KycStatus, actor: K.KycActor, reason: Block, voided: nat -> bool,
                            u: nat)
    requires to != K.Approved
    ensures var r := TakeAway(m, t, to, actor, reason, voided); r.Ok? && Verified(r.value, u) ==> Verified(m, u)
  {
    hide WithStatus, ReleaseAll;
    StatusNotApproved(m, t, to, actor, true, u);
  }

  lemma {:induction false} ExpiryNotVerifies(m: Market, due: nat -> bool, voided: nat -> bool, n: nat, u: nat)
    ensures var r := ExpireUpTo(m, due, voided, n); r.Ok? && Verified(r.value, u) ==> Verified(m, u)
  {
    hide TakeAway, Verified;
    if n == 0 {
    } else {
      ExpiryNotVerifies(m, due, voided, n - 1, u);
      if ExpireUpTo(m, due, voided, n - 1).Ok? {
        TakeAwayNotVerifies(ExpireUpTo(m, due, voided, n - 1).value, n - 1, K.Expired, K.Job, KycExpired, voided, u);
      }
    }
  }

  lemma {:induction false} ClaimsNotVerify(m: Market, stale: nat -> bool, n: nat, u: nat)
    ensures Verified(ReleaseClaims(m, stale, n), u) ==> Verified(m, u)
  {
    hide WithStatus, Verified;
    if n == 0 {
    } else {
      ClaimsNotVerify(m, stale, n - 1, u);
      StatusNotApproved(ReleaseClaims(m, stale, n - 1), n - 1, K.Submitted, K.Job, false, u);
    }
  }

  /** Only an approval verifies a technician. */
  lemma NewlyVerified(m: Market, op: Operation, t: nat)
    requires Verified(Step(m, op), t) && !Verified(m, t)
    ensures op.Approving? && op.technician == t && op.complete
  {
    hide WithStatus, ReleaseAll, TakeAway, ExpireUpTo, RunJob, ReleaseClaims, D.Do, Checked, DeriveStatus, Eligible,
        UnblockForKyc;
    match op {
      case Reviewing(u, to, actor, reason) => if to != K.Approved { StatusNotApproved(m, u, to, actor, reason, t); }
      case Approving(u, actor, complete) => if complete && u != t { OthersKept(m, u, K.Approved, actor, false, t); }
      case Suspending(u, actor, voided) => TakeAwayNotVerifies(m, u, K.Suspended, actor, KycSuspended, voided, t);
      case Expiring(due, voided) => ExpiryNotVerifies(m, due, voided, |m.technicians|, t);
      case Working(job) => JobKeepsAccounts(m, job, |m.desks|);
      case Unclaiming(stale) => ClaimsNotVerify(m, stale, |m.technicians|, t);
      case _ =>
    }
  }

  lemma OthersKept(m: Market, u: nat, to: K.KycStatus, actor: K.KycActor, reason: bool, t: nat)
    requires u != t && WithStatus(m, u, to, actor, reason).Ok?
    ensures Verified(WithStatus(m, u, to, actor, reason).value, t) == Verified(m, t)
    ensures UnblockForKyc(WithStatus(m, u, to, actor, reason).value, u).technicians
            == WithStatus(m, u, to, actor, reason).value.technicians
  {
    hide K.Transition;
  }

  /** Only a payable report, a cleared name or a new approval make an account payable. */
  lemma NewlyPayable(m: Market, op: Operation, t: nat)
    requires Payable(Step(m, op).accounts, t) && !Payable(m.accounts, t)
    ensures Qualifies(m, op, t) || (op.Approving? && op.technician == t)
  {
    hide Step, BlockExplained;
    var after := Step(m, op).accounts;
    StepExplainsAccounts(m, op);
    var i :| 0 <= i < |after| && after[i].owner == t && after[i].CanReceive();
    if i < |m.accounts| {
      assert AccountExplained(op, i, m.accounts[i], after[i]);
      AccountGains(m, op, i, after[i]);
    } else {
      NewAccountUnpaid(m, op, i);
    }
  }

  lemma AccountGains(m: Market, op: Operation, i: nat, b: Account)
    requires i < |m.accounts| && AccountExplained(op, i, m.accounts[i], b) && b.CanReceive()
    requires !m.accounts[i].CanReceive() && i < |Step(m, op).accounts| && Step(m, op).accounts[i] == b
    ensures Qualifies(m, op, b.owner) || (op.Approving? && op.technician == b.owner)
  {
    hide ReleaseAll;
  }

  lemma NewAccountUnpaid(m: Market, op: Operation, i: nat)
    requires |m.accounts| <= i < |Step(m, op).accounts|
    ensures !Step(m, op).accounts[i].CanReceive()
  {
    hide CreateAccount, Step;
    OnlyCreationAdds(m, op);
    if op.CreatingAccount? {
      AccountOpens(m, op.technician, op.provider);
      CreationSteps(m, op.technician, op.provider);
    }
  }

  /**
   A technician who was not eligible becomes so only by a complete approval of their identity, by the provider's
   report that their account can be paid, or by a review that clears the name of their account.
   */
  lemma EligibilityEarned(m: Market, op: Operation, t: nat)
    requires Eligible(Step(m, op), t) && !Eligible(m, t)
    ensures Qualifies(m, op, t)
  {
    hide Step, Verified, Payable;
    if !Verified(m, t) {
      NewlyVerified(m, op, t);
    } else if op.Approving? && op.technician == t {
      NotApprovedTwice(m, op, t);
    } else {
      NewlyPayable(m, op, t);
    }
  }

  /** An approved identity is not approved again. */
  lemma NotApprovedTwice(m: Market, op: Operation, t: nat)
    requires Verified(m, t) && op.Approving? && op.technician == t
    ensures Step(m, op) == m
  {
    hide UnblockForKyc;
  }

  // ---------------------------------------------------------------------------
  // A round of a job, order by order
  // ---------------------------------------------------------------------------

  /** One order after its chore; a provider that does not answer leaves it as it was. */
  function Worked(job: Job, i: nat, d: D.Desk): D.Desk {
    var chore := Chore(job, i, d);
    if chore.Some? && D.Do(d, chore.value).Ok? then D.Do(d, chore.value).value else d
  }

  lemma ChoreUnchecked(m: Market, job: Job, i: nat, d: D.Desk)
    ensures var c := Chore(job, i, d); c.Some? ==> Checked(m, c.value) == c.value && !c.value.Releasing?
  {
    hide ApprovedRefund, Eligible, Payable, Verified;
  }

  /** The chore of an order does not stop the round: it succeeds, or only the provider did not answer. */
  predicate Passes(job: Job, i: nat, d: D.Desk) {
    var chore := Chore(job, i, d);
    chore.Some? ==> D.Do(d, chore.value).Ok? || D.Do(d, chore.value) == Err(ProviderUnavailable)
  }

  /**
   Orders do not affect each other in a round: each is worked on as it was before it, and the round goes through
   exactly when no chore fails for another reason than a provider that does not answer.
   */
  lemma {:induction false} RoundPerOrder(m: Market, job: Job, n: nat)
    requires n <= |m.desks|
    ensures RunJob(m, job, n).Ok? <==> forall i :: 0 <= i < n ==> Passes(job, i, m.desks[i])
    ensures RunJob(m, job, n).Ok? ==>
              var after := RunJob(m, job, n).value;
              && after == m.(desks := after.desks) && |after.desks| == |m.desks|
              && forall i :: 0 <= i < |m.desks| ==>
                   after.desks[i] == if i < n then Worked(job, i, m.desks[i]) else m.desks[i]
  {
    hide D.Do, Chore, Checked;
    if n == 0 {
    } else {
      RoundPerOrder(m, job, n - 1);
      if RunJob(m, job, n - 1).Ok? {
        var before := RunJob(m, job, n - 1).value;
        ChoreUnchecked(before, job, n - 1, before.desks[n - 1]);
      }
    }
  }

  /** The live payment of the order is reserved, and the provider knows it. */
  predicate Reserved(d: D.Desk) {
    var a := D.Active(d.payments);
    a.Some? && d.payments[a.value].status == P.Authorized && d.payments[a.value].providerId.Some?
  }

  lemma CaptureWorks(d: D.Desk, answer: Option<P.Report>)
    requires DT.Sound(d) && Reserved(d)
    ensures var i := D.Active(d.payments).value;
            var r := D.Do(d, D.ToPayment(i, P.FullCapture(answer)));
            && (answer.None? ==> r == Err(ProviderUnavailable))
            && (answer.Some? && answer.value.status == P.Paid ==>
                  && r.Ok? && D.Active(r.value.payments) == Some(i) && r.value.payments[i].status == P.Paid
                  && r.value.order.status == if d.order.status == O.Completed then O.ReadyForReview else d.order.status)
  {
    hide P.Apply, DT.Sound, D.Captured, P.Step;
    var i := D.Active(d.payments).value;
    E.FullCaptureReports(d.payments[i], answer);
    if answer.Some? && answer.value.status == P.Paid {
      DT.CaptureStep(d, i, answer.value);
      DT.CapturedMoves(d.(payments := d.payments[i := P.Step(d.payments[i], P.Reported(answer.value))]));
    }
  }

  /**
   A round of captures charges every completed order whose money is reserved and whose provider says it is paid, and
   makes it ready for its rating; the orders it leaves alone are as they were.
   */
  lemma CaptureRound(m: Market, captured: nat -> Option<P.Report>, i: nat)
    requires RunJob(m, CaptureDue(captured), |m.desks|).Ok? && i < |m.desks| && DT.Sound(m.desks[i])
    ensures var d, after := m.desks[i], RunJob(m, CaptureDue(captured), |m.desks|).value;
            && i < |after.desks|
            && (d.order.status != O.Completed || (Reserved(d) && captured(i).None?) ==> after.desks[i] == d)
            && (d.order.status == O.Completed && Reserved(d)
                && captured(i).Some? && captured(i).value.status == P.Paid ==>
                  && after.desks[i].order.status == O.ReadyForReview
                  && D.Active(after.desks[i].payments) == D.Active(d.payments)
                  && after.desks[i].payments[D.Active(d.payments).value].status == P.Paid)
  {
    hide D.Do, DT.Sound;
    RoundPerOrder(m, CaptureDue(captured), |m.desks|);
    if Reserved(m.desks[i]) { CaptureWorks(m.desks[i], captured(i)); }
  }

  /**
   Before a reservation expires its order is approved for the client who did not answer, or charged although it is in
   dispute; other orders are left alone.
   */
  lemma DeadlineRound(m: Market, due: nat -> bool, captured: nat -> Option<P.Report>, i: nat)
    requires RunJob(m, CaptureBeforeDeadline(due, captured), |m.desks|).Ok? && i < |m.desks| && DT.Sound(m.desks[i])
    ensures var d, after := m.desks[i], RunJob(m, CaptureBeforeDeadline(due, captured), |m.desks|).value;
            && i < |after.desks|
            && (!due(i) || d.order.status !in {O.AwaitingApproval, O.Disputed} ==> after.desks[i] == d)
            && (due(i) && Reserved(d) && d.order.status == O.AwaitingApproval ==>
                  after.desks[i] == d.(order := DT.CompletedOrder(d.order)))
            && (due(i) && Reserved(d) && d.order.status == O.Disputed
                && captured(i).Some? && captured(i).value.status == P.Paid ==>
                  && after.desks[i].order.status == O.Disputed
                  && D.Active(after.desks[i].payments) == D.Active(d.payments)
                  && after.desks[i].payments[D.Active(d.payments).value].status == P.Paid)
  {
    hide D.Do, DT.Sound;
    var d := m.desks[i];
    RoundPerOrder(m, CaptureBeforeDeadline(due, captured), |m.desks|);
    if Reserved(d) {
      CaptureWorks(d, captured(i));
      if d.order.status == O.AwaitingApproval { AutoApprovalWorks(d); }
    }
  }

  lemma AutoApprovalWorks(d: D.Desk)
    requires d.order.status == O.AwaitingApproval
    ensures var a := D.Active(d.payments);
            D.Do(d, D.AutoApproving)
            == Ok(d.(order := if a.Some? && D.Confirmed(d.payments[a.value].status)
                     then DT.ReadyOrder(DT.CompletedOrder(d.order)) else DT.CompletedOrder(d.order)))
  {
    hide D.Captured;
    DT.CapturedMoves(d.(order := DT.CompletedOrder(d.order)));
    assert O.System in O.Caps(O.Job, d.order, O.Completed) * O.AllowedTo(d.order.status, O.Completed);
  }

  /** A client who does not answer in time approves; a request that nobody takes in time is cancelled. */
  lemma DueRounds(m: Market, due: nat -> bool, i: nat)
    requires i < |m.desks|
    ensures var r, d := RunJob(m, AutoApprove(due), |m.desks|), m.desks[i];
            var a := D.Active(d.payments);
            r.Ok? ==> i < |r.value.desks|
                      && r.value.desks[i]
                         == if due(i) && d.order.status == O.AwaitingApproval
                            then d.(order := if a.Some? && D.Confirmed(d.payments[a.value].status)
                                    then DT.ReadyOrder(DT.CompletedOrder(d.order)) else DT.CompletedOrder(d.order))
                            else d
    ensures var r, d := RunJob(m, ExpireRequests(due), |m.desks|), m.desks[i];
            r.Ok? ==> i < |r.value.desks|
                      && r.value.desks[i]
                         == if due(i) && d.order.status == O.Requested
                            then d.(order := d.order.(status := O.Cancelled, version := d.order.version + 1)) else d
  {
    hide D.Do;
    var d := m.desks[i];
    if RunJob(m, AutoApprove(due), |m.desks|).Ok? { RoundPerOrder(m, AutoApprove(due), |m.desks|); }
    if RunJob(m, ExpireRequests(due), |m.desks|).Ok? { RoundPerOrder(m, ExpireRequests(due), |m.desks|); }
    if d.order.status == O.AwaitingApproval { AutoApprovalWorks(d); }
    if d.order.status == O.Requested { ExpiryWorks(d); }
  }

  lemma ExpiryWorks(d: D.Desk)
    requires d.order.status == O.Requested
    ensures D.Do(d, D.Expiring) == Ok(d.(order := d.order.(status := O.Cancelled, version := d.order.version + 1)))
  {
    assert O.System in O.Caps(O.Job, d.order, O.Cancelled) * O.AllowedTo(O.Requested, O.Cancelled);
  }

  /** A round of retries sends the first approved refund of each live payment, and no other. */
  lemma RetryRound(m: Market, sent: nat -> P.RefundAnswer, i: nat, k: nat)
    requires RunJob(m, RetryApproved(sent), |m.desks|).Ok? && i < |m.desks| && DT.Sound(m.desks[i])
    requires var a := D.Active(m.desks[i].payments);
             && a.Some? && k < |m.desks[i].payments[a.value].refunds|
             && m.desks[i].payments[a.value].refunds[k].status == P.Approved
             && forall j :: 0 <= j < k ==> m.desks[i].payments[a.value].refunds[j].status != P.Approved
    ensures var d, after := m.desks[i], RunJob(m, RetryApproved(sent), |m.desks|).value;
            var n := D.Active(d.payments).value;
            && i < |after.desks|
            && (after.desks[i] == d
                || (n < |after.desks[i].payments| && E.OnlyRow(d.payments[n], after.desks[i].payments[n], k)
                    && after.desks[i].payments[n].refunds[k].status
                       == if P.Refundable(d.payments[n].status) then E.Sent(sent(i)) else P.RefundFailed))
  {
    hide D.Do, DT.Sound;
    var d := m.desks[i];
    var n := D.Active(d.payments).value;
    RoundPerOrder(m, RetryApproved(sent), |m.desks|);
    RetryWorks(d, n, k, sent(i));
    assert ApprovedRefund(d.payments[n].refunds) == k;
  }

  lemma RetryWorks(d: D.Desk, n: nat, k: nat, answer: P.RefundAnswer)
    requires DT.Sound(d) && n < |d.payments| && k < |d.payments[n].refunds|
    requires d.payments[n].refunds[k].status == P.Approved
    ensures var r := D.Do(d, D.ToPayment(n, P.Retry(k, answer)));
            r.Ok? ==> n < |r.value.payments| && E.OnlyRow(d.payments[n], r.value.payments[n], k)
                      && r.value.payments[n].refunds[k].status
                         == if P.Refundable(d.payments[n].status) then E.Sent(answer) else P.RefundFailed
  {
    hide P.Apply, E.OnlyRow, I.Consistent, O.Transition, DT.SomeCharged;
    E.RefundSent(d.payments[n], k, answer);
  }
}
