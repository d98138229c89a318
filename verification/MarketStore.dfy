/** The tables of the market, changed row by row by the operations, each inside a transaction. */
module MarketStores {
  import opened Results
  import K = Kyc
  import O = Orders
  import D = Desk
  import opened Marketplace

  class MarketStore {
    var technicians: seq<Technician>
    var accounts: seq<Account>
    var desks: seq<D.Desk>

    function View(): Market
      reads this
    {
      Market(technicians, accounts, desks)
    }

    ghost predicate Ran(r: Result<()>, spec: Result<Market>)
      reads this
    {
      match spec
      case Ok(m) => r.Ok? && View() == m
      case Err(e) => r == Err(e)
    }

    constructor ()
      ensures View() == EMPTY
    {
      technicians, accounts, desks := [], [], [];
    }

    /** The orders of the technician that have not started return to the pool. */
    method ReturnOrders(t: nat, voided: nat -> bool) returns (r: Result<()>)
      modifies this`desks
      ensures r.Ok? <==> forall k :: 0 <= k < |old(desks)| ==> !(Held(old(desks)[k], t) && Processing(old(desks)[k]))
      ensures r.Ok? ==> |desks| == |old(desks)|
                        && forall k :: 0 <= k < |desks| ==> LetGo(old(desks)[k], t, voided(k)) == Ok(desks[k])
      ensures r.Err? ==> r.error == InvalidTransition
    {
      hide D.Release, Processing;
      ghost var before := desks;
      for i := 0 to |desks|
        invariant |desks| == |before|
        invariant forall k :: 0 <= k < i ==> LetGo(before[k], t, voided(k)) == Ok(desks[k])
        invariant forall k :: 0 <= k < i ==> !(Held(before[k], t) && Processing(before[k]))
        invariant forall k :: i <= k < |before| ==> desks[k] == before[k]
      {
        LetGoFails(desks[i], t, voided(i));
        if Held(desks[i], t) {
          var freed :- D.Release(desks[i], voided(i));
          desks := desks[i := freed];
        }
      }
      return Ok(());
    }

    /** The reservations in the pool for the technician are opened to everybody. */
    method OpenReservations(t: nat)
      modifies this`desks
      ensures |desks| == |old(desks)| && forall k :: 0 <= k < |desks| ==> desks[k] == Opened(old(desks)[k], t)
    {
      ghost var before := desks;
      for i := 0 to |desks|
        invariant |desks| == |before|
        invariant forall k :: 0 <= k < i ==> desks[k] == Opened(before[k], t)
        invariant forall k :: i <= k < |before| ==> desks[k] == before[k]
      {
        var d := desks[i];
        if d.order.status == O.Requested && d.order.requested == Some(t) {
          desks := desks[i := d.(order := d.order.(requested := None, version := d.order.version + 1))];
        }
      }
    }

    /** Lets a technician go; the second pass also meets the orders that the first one just returned. */
    method ReleaseTechnicianOrders(t: nat, voided: nat -> bool) returns (r: Result<()>)
      modifies this`desks
      ensures Ran(r, WithDesks(old(View()), t, voided))
    {
      hide LetGo, Opened, Processing, Held;
      var _ :- ReturnOrders(t, voided);
      OpenReservations(t);
      assert forall k :: 0 <= k < |desks| ==> desks[k] == Released(old(desks)[k], t, voided(k));
      return Ok(());
    }

    method BlockAccounts(t: nat, reason: Block)
      modifies this`accounts
      ensures View() == BlockForKyc(old(View()), t, reason)
    {
      ghost var before := accounts;
      for i := 0 to |accounts|
        invariant |accounts| == |before|
        invariant forall k :: 0 <= k < i ==> accounts[k] == BlockedForKyc(before[k], t, reason)
        invariant forall k :: i <= k < |before| ==> accounts[k] == before[k]
      {
        if accounts[i].owner == t && (accounts[i].blocked.None? || KycBlock(accounts[i].blocked)) {
          accounts := accounts[i := accounts[i].(blocked := Some(reason))];
        }
      }
    }

    method UnblockAccounts(t: nat)
      modifies this`accounts
      ensures View() == UnblockForKyc(old(View()), t)
    {
      ghost var before := accounts;
      for i := 0 to |accounts|
        invariant |accounts| == |before|
        invariant forall k :: 0 <= k < i ==> accounts[k] == UnblockedForKyc(before[k], t)
        invariant forall k :: i <= k < |before| ==> accounts[k] == before[k]
      {
        if accounts[i].owner == t && KycBlock(accounts[i].blocked) {
          accounts := accounts[i := accounts[i].(blocked := None)];
        }
      }
    }

    method MoveIdentity(t: nat, to: K.KycStatus, actor: K.KycActor, reason: bool) returns (r: Result<()>)
      modifies this`technicians
      ensures Ran(r, WithStatus(old(View()), t, to, actor, reason))
    {
      hide K.Transition;
      if t >= |technicians| { return Err(NotFound); }
      var profile :- K.Transition(technicians[t].profile, t, to, actor, reason);
      technicians := technicians[t := technicians[t].(profile := profile)];
      return Ok(());
    }

    method Decide(t: nat, actor: K.KycActor, complete: bool) returns (r: Result<()>)
      modifies this
      ensures Ran(r, Approve(old(View()), t, actor, complete))
    {
      hide WithStatus, UnblockForKyc;
      if !complete { return Err(NotEligible); }
      var _ :- MoveIdentity(t, K.Approved, actor, false);
      UnblockAccounts(t);
      return Ok(());
    }

    method RemoveApproval(t: nat, to: K.KycStatus, actor: K.KycActor, reason: Block, voided: nat -> bool)
        returns (r: Result<()>)
      modifies this
      ensures Ran(r, TakeAway(old(View()), t, to, actor, reason, voided))
    {
      hide WithStatus, WithDesks, BlockForKyc;
      var _ :- MoveIdentity(t, to, actor, true);
      var _ :- ReleaseTechnicianOrders(t, voided);
      BlockAccounts(t, reason);
      return Ok(());
    }

    /** The nightly job: every approved identity that is due expires; one failure undoes the whole batch. */
    method ExpireApprovals(due: nat -> bool, voided: nat -> bool) returns (r: Result<()>)
      modifies this
      ensures Ran(r, ExpireUpTo(old(View()), due, voided, |old(technicians)|))
    {
      hide TakeAway;
      var n := |technicians|;
      for i := 0 to n
        invariant ExpireUpTo(old(View()), due, voided, i) == Ok(View())
      {
        if i < |technicians| && technicians[i].profile.status == K.Approved && due(i) {
          var done := RemoveApproval(i, K.Expired, K.Job, KycExpired, voided);
          if done.Err? {
            FailureStays(old(View()), due, voided, i + 1, n);
            return done;
          }
        }
      }
      return Ok(());
    }

    /** Once the batch has failed at one technician, it has failed. */
    static lemma {:induction false} FailureStays(m: Market, due: nat -> bool, voided: nat -> bool, i: nat, n: nat)
      requires i <= n && ExpireUpTo(m, due, voided, i).Err?
      ensures ExpireUpTo(m, due, voided, n) == Err(ExpireUpTo(m, due, voided, i).error)
      decreases n - i
    {
      hide Expire;
      if i == n {
      } else {
        FailureStays(m, due, voided, i + 1, n);
      }
    }

    method DeactivateUser(t: nat, voided: nat -> bool) returns (r: Result<()>)
      modifies this
      ensures Ran(r, Deactivate(old(View()), t, voided))
    {
      hide WithDesks;
      if t >= |technicians| { return Err(NotFound); }
      technicians := technicians[t := technicians[t].(active := false)];
      r := ReleaseTechnicianOrders(t, voided);
    }

    method SyncAccount(i: nat, info: AccountInfo, matches: Option<bool>, voided: nat -> bool) returns (r: Result<()>)
      modifies this
      ensures Ran(r, Sync(old(View()), i, info, matches, voided))
    {
      hide WithDesks;
      if i >= |accounts| { return Err(NotFound); }
      var wasEligible := accounts[i].CanReceive();
      var target := DeriveStatus(accounts[i].status, info);
      var a := accounts[i];
      if AccountMoveAllowed(a.status, target) { a := a.(status := target); }
      var mismatched := matches == Some(false) && a.nameMatches != Some(false);
      a := a.(nameMatches := matches);
      if mismatched && a.blocked.None? { a := a.(blocked := Some(NameMismatch)); }
      accounts := accounts[i := a];
      if wasEligible && !a.CanReceive() { r := ReleaseTechnicianOrders(a.owner, voided); } else { r := Ok(()); }
    }

    method BlockAccount(i: nat, voided: nat -> bool) returns (r: Result<()>)
      modifies this
      ensures Ran(r, Deauthorize(old(View()), i, voided))
    {
      hide WithDesks;
      if i >= |accounts| { return Err(NotFound); }
      var a := accounts[i];
      if a.blocked.None? || KycBlock(a.blocked) || a.blocked == Some(NameMismatch) {
        accounts := accounts[i := a.(blocked := Some(ProviderDeauthorized))];
      }
      assert accounts == old(accounts)[i := Deauthorized(a)];
      if a.CanReceive() { r := ReleaseTechnicianOrders(a.owner, voided); } else { r := Ok(()); }
    }

    method ResolveNameReview(i: nat, approve: bool, voided: nat -> bool) returns (r: Result<()>)
      modifies this
      ensures Ran(r, ReviewName(old(View()), i, approve, voided))
    {
      hide WithDesks;
      if i >= |accounts| { return Err(NotFound); }
      var a := accounts[i];
      if a.blocked != Some(NameMismatch) { return Err(NotPending); }
      if approve {
        var hidden := if a.owner < |technicians| then HiddenBlock(technicians[a.owner].profile.status) else None;
        accounts := accounts[i := a.(blocked := hidden, nameMatches := Some(true))];
        r := Ok(());
      } else {
        accounts := accounts[i := a.(blocked := Some(NameRejected))];
        r := ReleaseTechnicianOrders(a.owner, voided);
      }
    }

    /** One order of a job, in a savepoint of its own. */
    method DoOneChore(job: Job, i: nat) returns (r: Result<()>)
      requires i < |desks|
      modifies this`desks
      ensures Ran(r, DoChore(old(View()), job, i))
    {
      hide D.Do, Chore, Checked;
      var chore := Chore(job, i, desks[i]);
      if chore.None? { return Ok(()); }
      if chore.value.Releasing? { return Err(NotFound); }
      var done := D.Do(desks[i], Checked(View(), chore.value));
      if done == Err(ProviderUnavailable) { return Ok(()); }
      if done.Err? { return Err(done.error); }
      desks := desks[i := done.value];
      return Ok(());
    }

    /** A job over all orders; what fails for another reason than the provider undoes the whole round. */
    method RunOverOrders(job: Job) returns (r: Result<()>)
      modifies this`desks
      ensures Ran(r, RunJob(old(View()), job, |old(desks)|))
    {
      hide DoChore;
      var n := |desks|;
      for i := 0 to n
        invariant |desks| == n && RunJob(old(View()), job, i) == Ok(View())
      {
        ChoreKeepsRows(View(), job, i);
        var one := DoOneChore(job, i);
        if one.Err? {
          JobFailureStays(old(View()), job, i + 1, n);
          return one;
        }
      }
      return Ok(());
    }

    static lemma ChoreKeepsRows(m: Market, job: Job, i: nat)
      ensures var r := DoChore(m, job, i);
              r.Ok? ==> r.value == m.(desks := r.value.desks) && |r.value.desks| == |m.desks|
    {
      hide D.Do, Chore, Checked;
    }

    static lemma {:induction false} JobFailureStays(m: Market, job: Job, i: nat, n: nat)
      requires i <= n && RunJob(m, job, i).Err?
      ensures RunJob(m, job, n) == Err(RunJob(m, job, i).error)
      decreases n - i
    {
      hide DoChore;
      if i == n {
      } else {
        JobFailureStays(m, job, i + 1, n);
      }
    }

    /** Abandoned reviews go back to the queue, one by one. */
    method ReleaseStaleClaims(stale: nat -> bool)
      modifies this`technicians
      ensures View() == ReleaseClaims(old(View()), stale, |old(technicians)|)
    {
      hide WithStatus;
      var n := |technicians|;
      for i := 0 to n
        invariant View() == ReleaseClaims(old(View()), stale, i)
      {
        if i < |technicians| && technicians[i].profile.status == K.UnderReview && stale(i) {
          var saved := technicians;
          var moved := MoveIdentity(i, K.Submitted, K.Job, false);
          if moved.Err? { technicians := saved; }
        }
      }
    }

    /** One operation: it commits, or the tables are as they were. */
    method Transact(op: Operation) returns (r: Result<()>)
      modifies this
      ensures View() == Step(old(View()), op)
    {
      hide Do;
      var saved := View();
      r := Perform(op);
      if r.Err? { technicians, accounts, desks := saved.technicians, saved.accounts, saved.desks; }
    }

    method Perform(op: Operation) returns (r: Result<()>)
      modifies this
      ensures Ran(r, Do(old(View()), op))
    {
      hide WithStatus, Approve, TakeAway, ExpireUpTo, Deactivate, Sync, Deauthorize, ReviewName, D.Do, Eligible,
          Checked, RunJob,
        ReleaseClaims;
      match op {
        case Registering =>
          technicians := technicians + [Technician(K.Profile(K.NotStarted, None, 0, 0), true)];
          r := Ok(());
        case Reviewing(t, to, actor, reason) =>
          if to == K.Approved || to == K.Suspended || to == K.Expired { return Err(InvalidTransition); }
          r := MoveIdentity(t, to, actor, reason);
        case Approving(t, actor, complete) => r := Decide(t, actor, complete);
        case Suspending(t, actor, voided) => r := RemoveApproval(t, K.Suspended, actor, KycSuspended, voided);
        case Expiring(due, voided) => r := ExpireApprovals(due, voided);
        case Deactivating(t, voided) => r := DeactivateUser(t, voided);
        case CreatingAccount(t, provider) =>
          if t >= |technicians| || technicians[t].profile.status != K.Approved { return Err(NotEligible); }
          if exists i :: 0 <= i < |accounts| && accounts[i].owner == t && accounts[i].provider == provider {
            return Err(ConstraintViolation);
          }
          accounts := accounts + [Account(t, provider, Onboarding, None, None)];
          r := Ok(());
        case Syncing(i, info, matches, voided) => r := SyncAccount(i, info, matches, voided);
        case Deauthorizing(i, voided) => r := BlockAccount(i, voided);
        case ReviewingName(i, approve, voided) => r := ResolveNameReview(i, approve, voided);
        case Placing(client, requested, available) =>
          if requested.Some? && !(available && Eligible(View(), requested.value)) { return Err(NotEligible); }
          desks := desks + [D.NewDesk(client, requested)];
          r := Ok(());
        case Acting(i, action) =>
          if i >= |desks| || action.Releasing? { return Err(NotFound); }
          var desk :- D.Do(desks[i], Checked(View(), action));
          desks := desks[i := desk];
          r := Ok(());
        case Working(job) => r := RunOverOrders(job);
        case Unclaiming(stale) =>
          ReleaseStaleClaims(stale);
          r := Ok(());
      }
    }
  }
}
