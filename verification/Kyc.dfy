/** The verification of a technician's identity: which pairs of states exist, and who may take each. */
module Kyc {
  import opened Results

  datatype KycStatus =
    | NotStarted | PendingDocuments | Submitted | UnderReview | CorrectionRequired
    | Approved | Rejected | Suspended | Expired

  datatype Capacity = Technician | Reviewer | Supervisor | System

  datatype KycActor = Owner(id: nat) | Staff(id: nat, reviewer: bool, supervisor: bool) | Job

  datatype Profile = Profile(status: KycStatus, reviewer: Option<nat>, cycle: nat, version: nat)

  function AllowedTo(before: KycStatus, after: KycStatus): set<Capacity> {
    match before
    case NotStarted => if after == PendingDocuments then {Technician, System} else {}
    case PendingDocuments | CorrectionRequired | Expired => if after == Submitted then {Technician} else {}
    case Submitted => if after == UnderReview then {Reviewer, Supervisor} else {}
    case UnderReview =>
      if after == Submitted then {Reviewer, Supervisor, System}
      else if after == Approved || after == CorrectionRequired then {Reviewer, Supervisor}
      else if after == Rejected then {Supervisor} else {}
    case Approved => if after == Suspended then {Supervisor} else if after == Expired then {System} else {}
    case Suspended => if after == UnderReview then {Supervisor} else {}
    case Rejected => {}
  }

  predicate ReasonRequired(before: KycStatus, after: KycStatus) {
    || (before == UnderReview && (after == CorrectionRequired || after == Rejected))
    || (before == Approved && (after == Suspended || after == Expired))
    || (before == Suspended && after == UnderReview)
  }

  function Capacities(actor: KycActor, owner: nat): set<Capacity> {
    match actor
    case Job => {System}
    case Owner(id) => if id == owner then {Technician} else {}
    case Staff(_, reviewer, supervisor) =>
      (if reviewer then {Reviewer} else {}) + (if supervisor then {Supervisor} else {})
  }

  /** The effects of a transition on the cycle and on who is in charge. */
  function Effects(p: Profile, to: KycStatus, actor: KycActor): Profile {
    var newCycle := (to == Submitted && p.status in {PendingDocuments, CorrectionRequired, Expired})
                    || (to == UnderReview && p.status == Suspended);
    Profile(to,
            if to == UnderReview then (if actor.Staff? || actor.Owner? then Some(actor.id) else None)
            else if p.status == UnderReview then None else p.reviewer,
            p.cycle + if newCycle then 1 else 0,
            p.version + 1)
  }

  function Transition(p: Profile, owner: nat, to: KycStatus, actor: KycActor, reason: bool,
      expected: Option<nat> := None): Result<Profile> {
    var caps := Capacities(actor, owner) * AllowedTo(p.status, to);
    if AllowedTo(p.status, to) == {} then Err(InvalidTransition)
    else if expected.Some? && expected.value != p.version then Err(StaleVersion)
    else if caps == {} then Err(Forbidden)
    else if p.status == UnderReview && caps == {Reviewer} && actor.Staff? && p.reviewer != Some(actor.id) then
      Err(Forbidden)
    else if ReasonRequired(p.status, to) && !reason then Err(InvalidReason)
    else Ok(Effects(p, to, actor))
  }

  /** A case has somebody in charge exactly while it is under review. */
  predicate InCharge(p: Profile) {
    p.reviewer.Some? <==> p.status == UnderReview
  }

  lemma TransitionKeepsInCharge(p: Profile, owner: nat, to: KycStatus, actor: KycActor, reason: bool,
      expected: Option<nat>)
    requires InCharge(p)
    ensures var r := Transition(p, owner, to, actor, reason, expected);
            r.Ok? ==> InCharge(r.value) && r.value.status == to && r.value.version == p.version + 1 && p.status != to
  {
    if to == UnderReview && actor.Job? { assert Capacities(actor, owner) * AllowedTo(p.status, to) == {}; }
  }

  /** A supervisor, or the reviewer who has the case. */
  predicate Reviews(p: Profile, actor: KycActor) {
    actor.Staff? && (actor.supervisor || (actor.reviewer && p.reviewer == Some(actor.id)))
  }

  predicate Supervises(actor: KycActor) {
    actor.Staff? && actor.supervisor
  }

  /**
   Who brings a case to a state. Its technician sends it in; staff takes it and decides it; only a supervisor rejects,
   suspends or reopens; only the clock expires it.
   */
  predicate MayBring(p: Profile, owner: nat, to: KycStatus, actor: KycActor) {
    match to
    case NotStarted => false
    case PendingDocuments => p.status == NotStarted && actor in {Owner(owner), Job}
    case Submitted =>
      || (p.status in {PendingDocuments, CorrectionRequired, Expired} && actor == Owner(owner))
      || (p.status == UnderReview && (Reviews(p, actor) || actor == Job))
    case UnderReview =>
      || (p.status == Submitted && actor.Staff? && (actor.reviewer || actor.supervisor))
      || (p.status == Suspended && Supervises(actor))
    case Approved | CorrectionRequired => p.status == UnderReview && Reviews(p, actor)
    case Rejected => p.status == UnderReview && Supervises(actor)
    case Suspended => p.status == Approved && Supervises(actor)
    case Expired => p.status == Approved && actor == Job
  }

  /** What takes something from the technician, or reopens it, needs a reason. */
  predicate NeedsReason(before: KycStatus, to: KycStatus) {
    to in {CorrectionRequired, Rejected, Suspended, Expired} || (before == Suspended && to == UnderReview)
  }

  lemma OneCapacity(who: Capacity, allowed: set<Capacity>)
    ensures {who} * allowed == {} <==> who !in allowed
  {
    assert who in allowed ==> who in {who} * allowed;
  }

  lemma StaffCapacities(actor: KycActor, owner: nat, allowed: set<Capacity>)
    requires actor.Staff?
    ensures var caps := Capacities(actor, owner) * allowed;
            var reviews, supervises := actor.reviewer && Reviewer in allowed, actor.supervisor && Supervisor in allowed;
            && (caps == {} <==> !reviews && !supervises)
            && (caps == {Reviewer} <==> reviews && !supervises)
  {
    var caps := Capacities(actor, owner) * allowed;
    assert Reviewer in caps <==> actor.reviewer && Reviewer in allowed;
    assert Supervisor in caps <==> actor.supervisor && Supervisor in allowed;
    assert forall w :: w in caps ==> w == Reviewer || w == Supervisor;
  }

  /**
   A transition goes through exactly for those who may bring the case there, with a reason where one is needed. It
   starts a new cycle when the technician sends the case in or a supervisor reopens it, and puts in charge whoever
   takes it.
   */
  lemma TransitionExactly(p: Profile, owner: nat, to: KycStatus, actor: KycActor, reason: bool)
    requires InCharge(p)
    ensures var r := Transition(p, owner, to, actor, reason);
            && (r.Ok? <==> MayBring(p, owner, to, actor) && (NeedsReason(p.status, to) ==> reason))
            && (r.Ok? ==>
                  r.value == Profile(to, if to == UnderReview && actor.Staff? then Some(actor.id) else None,
                                     if p.status == Suspended || (to == Submitted && p.status != UnderReview)
                                     then p.cycle + 1 else p.cycle, p.version + 1))
  {
    var allowed := AllowedTo(p.status, to);
    if actor.Staff? { StaffCapacities(actor, owner, allowed); }
    OneCapacity(Technician, allowed);
    OneCapacity(System, allowed);
  }

  lemma StatusReached(p: Profile, owner: nat, to: KycStatus, actor: KycActor, reason: bool)
    ensures var r := Transition(p, owner, to, actor, reason); r.Ok? ==> r.value.status == to
  {
  }

  /** Only a supervisor, or whoever has the case assigned, approves it; only a supervisor or the clock takes it away. */
  lemma ApprovalByReviewer(p: Profile, owner: nat, actor: KycActor, reason: bool)
    requires Transition(p, owner, Approved, actor, reason).Ok?
    ensures p.status == UnderReview && actor.Staff?
        && (actor.supervisor || (actor.reviewer && p.reviewer == Some(actor.id)))
  {
    var w :| w in Capacities(actor, owner) * AllowedTo(p.status, Approved);
    assert p.status == UnderReview;
    if actor.Staff? && !actor.supervisor {
      assert Capacities(actor, owner) * AllowedTo(p.status, Approved) == {Reviewer};
    }
  }
}
