/** The service order: which pairs of states exist, who may take each, and what each one writes. */
module Orders {
  import opened Results

  datatype OrderStatus =
    | Requested | Accepted | Scheduled | InProgress | AwaitingApproval | Completed | Paid | ReadyForReview | Reviewed
    | Disputed | Cancelled | Failed | Refunded

  datatype Who = Client | Technician | Admin | System

  datatype Actor = ClientUser(id: nat) | TechnicianUser(id: nat) | AdminUser | Job

  datatype Order = Order(
    client: nat, status: OrderStatus, technician: Option<nat>, requested: Option<nat>, price: Option<nat>,
    departed: bool, reviewed: bool, version: nat)

  /** Who may take an order from one state to another; nobody when the pair does not exist. */
  function AllowedTo(before: OrderStatus, after: OrderStatus): set<Who> {
    match before
    case Requested =>
      if after == Accepted then {Technician} else if after == Cancelled then {Client, System, Admin} else {}
    case Accepted =>
      if after == Scheduled then {Technician}
      else if after == Requested then {Technician, System}
      else if after == Cancelled then {Client, Admin} else {}
    case Scheduled =>
      if after == InProgress then {Technician}
      else if after == Requested then {Technician, System}
      else if after == Cancelled then {Client, Admin}
      else if after == Failed then {System} else {}
    case InProgress =>
      if after == AwaitingApproval then {Technician} else if after == Disputed then {Client, Admin} else {}
    case AwaitingApproval => if after == Completed then {Client, System} else if after == Disputed then {Client} else {}
    case Completed => if after == Paid || after == Failed || after == Disputed then {System} else {}
    case Paid => if after == ReadyForReview then {System} else if after == Disputed then {Client, System} else {}
    case ReadyForReview =>
      if after == Disputed || after == Reviewed then {Client, System}
      else if after == Refunded then {Admin, System}
      else {}
    case Reviewed => if after == Disputed then {Client, System} else if after == Refunded then {Admin, System} else {}
    case Disputed =>
      if after == Completed || after == Cancelled then {Admin}
      else if after == ReadyForReview || after == Reviewed || after == Refunded then {Admin, System} else {}
    case Cancelled | Failed | Refunded => {}
  }

  /** The order has not started: its technician can still be let go. */
  predicate PreStart(s: OrderStatus) {
    s == Accepted || s == Scheduled
  }

  function Caps(actor: Actor, order: Order, to: OrderStatus): set<Who> {
    match actor
    case Job => {System}
    case ClientUser(id) => if id == order.client then {Client} else {}
    case TechnicianUser(id) =>
      if order.technician == Some(id) then {Technician}
      else if order.status == Requested && to == Accepted && order.technician.None?
              && (order.requested.None? || order.requested == Some(id)) then {Technician}
      else {}
    case AdminUser => {Admin}
  }

  /** What a transition writes besides the state. */
  function Written(order: Order, to: OrderStatus, actor: Actor): Order {
    var o := order.(status := to, version := order.version + 1);
    match to
    case Accepted => if actor.TechnicianUser? then o.(technician := Some(actor.id)) else o
    case Requested => o.(technician := None, price := None)
    case _ => o
  }

  function Transition(order: Order, to: OrderStatus, actor: Actor, expected: Option<nat> := None): Result<Order> {
    if AllowedTo(order.status, to) == {} then Err(InvalidTransition)
    else if expected.Some? && expected.value != order.version then Err(StaleVersion)
    else if Caps(actor, order, to) * AllowedTo(order.status, to) == {} then Err(Forbidden)
    else Ok(Written(order, to, actor))
  }

  /** The order as read by a user: its client or its assigned technician, and nobody else. */
  predicate Visible(order: Order, actor: Actor) {
    match actor
    case ClientUser(id) => id == order.client
    case TechnicianUser(id) => order.technician == Some(id)
    case AdminUser | Job => false
  }

  /** An order has a technician from its acceptance on, and none while it is in the pool. */
  predicate Assigned(order: Order) {
    match order.status
    case Requested => order.technician.None?
    case Cancelled => true
    case _ => order.technician.Some?
  }

  lemma TransitionKeepsAssigned(order: Order, to: OrderStatus, actor: Actor, expected: Option<nat>)
    requires Assigned(order)
    ensures var r := Transition(order, to, actor, expected);
            r.Ok? ==> Assigned(r.value) && r.value.status == to && r.value.version == order.version + 1
                      && r.value.requested == order.requested
  {
  }

  /** The order's own technician. */
  predicate Own(order: Order, actor: Actor) {
    actor.TechnicianUser? && order.technician == Some(actor.id)
  }

  /** The order's client, or the clock in the client's place. */
  predicate ForClient(order: Order, actor: Actor) {
    actor == ClientUser(order.client) || actor == Job
  }

  /**
   Who brings an order to a state. Its technician schedules, starts and finishes it; its client approves, disputes and
   rates it; the platform charges it, returns it to the pool or fails it; an administrator ends its dispute.
   */
  predicate MayBring(order: Order, to: OrderStatus, actor: Actor) {
    match to
    case Accepted =>
      order.status == Requested && actor.TechnicianUser?
      && (order.requested.None? || order.requested == Some(actor.id))
    case Scheduled => order.status == Accepted && Own(order, actor)
    case InProgress => order.status == Scheduled && Own(order, actor)
    case AwaitingApproval => order.status == InProgress && Own(order, actor)
    case Requested => PreStart(order.status) && (Own(order, actor) || actor == Job)
    case Completed =>
      (order.status == AwaitingApproval && ForClient(order, actor)) || (order.status == Disputed && actor == AdminUser)
    case Paid => order.status == Completed && actor == Job
    case ReadyForReview =>
      (order.status == Paid && actor == Job) || (order.status == Disputed && actor in {AdminUser, Job})
    case Reviewed =>
      (order.status == ReadyForReview && ForClient(order, actor))
      || (order.status == Disputed && actor in {AdminUser, Job})
    case Disputed =>
      || (order.status == InProgress && actor in {ClientUser(order.client), AdminUser})
      || (order.status == AwaitingApproval && actor == ClientUser(order.client))
      || (order.status == Completed && actor == Job)
      || (order.status in {Paid, ReadyForReview, Reviewed} && ForClient(order, actor))
    case Cancelled =>
      || (order.status == Requested && (ForClient(order, actor) || actor == AdminUser))
      || (PreStart(order.status) && actor in {ClientUser(order.client), AdminUser})
      || (order.status == Disputed && actor == AdminUser)
    case Failed => order.status in {Scheduled, Completed} && actor == Job
    case Refunded => order.status in {ReadyForReview, Reviewed, Disputed} && actor in {AdminUser, Job}
  }

  /** A transition goes through exactly for those who may bring the order there, on the version they saw. */
  lemma TransitionExactly(order: Order, to: OrderStatus, actor: Actor, expected: Option<nat>)
    requires Assigned(order)
    ensures Transition(order, to, actor, expected).Ok? <==>
              MayBring(order, to, actor) && (expected.None? || expected == Some(order.version))
  {
    match actor {
      case ClientUser(_) => CapacityDecides(order, to, actor, Client);
      case TechnicianUser(_) => CapacityDecides(order, to, actor, Technician);
      case AdminUser => CapacityDecides(order, to, actor, Admin);
      case Job => CapacityDecides(order, to, actor, System);
    }
    hide Transition, AllowedTo;
  }

  /** One capacity decides who may bring an order where. */
  lemma CapacityDecides(order: Order, to: OrderStatus, actor: Actor, who: Who)
    requires Assigned(order) && Caps(actor, order, to) <= {who}
    requires match actor
             case ClientUser(_) => who == Client
             case TechnicianUser(_) => who == Technician
             case AdminUser => who == Admin
             case Job => who == System
    ensures Transition(order, to, actor).Ok? <==> MayBring(order, to, actor)
  {
    CapacityListed(order, to, actor, who);
    CapacityMeets(Caps(actor, order, to), AllowedTo(order.status, to), who);
    hide AllowedTo, Caps, MayBring, Written;
  }

  lemma CapacityMeets(caps: set<Who>, allowed: set<Who>, who: Who)
    requires caps <= {who}
    ensures caps * allowed != {} <==> who in caps && who in allowed
  {
    assert who in caps && who in allowed ==> who in caps * allowed;
  }

  lemma CapacityListed(order: Order, to: OrderStatus, actor: Actor, who: Who)
    requires Assigned(order) && Caps(actor, order, to) <= {who}
    requires match actor
             case ClientUser(_) => who == Client
             case TechnicianUser(_) => who == Technician
             case AdminUser => who == Admin
             case Job => who == System
    ensures who in Caps(actor, order, to) && who in AllowedTo(order.status, to) <==> MayBring(order, to, actor)
  {
  }

  /** Only a technician that the order is open to, or reserved for, can take it from the pool. */
  lemma AcceptedByEligible(order: Order, actor: Actor)
    requires Transition(order, Accepted, actor).Ok?
    ensures order.status == Requested && actor.TechnicianUser?
    ensures Transition(order, Accepted, actor).value.technician == Some(actor.id)
    ensures order.technician.None? ==> order.requested.None? || order.requested == Some(actor.id)
  {
    assert Technician in Caps(actor, order, Accepted) by {
      var w :| w in Caps(actor, order, Accepted) * AllowedTo(order.status, Accepted);
      assert w == Technician;
    }
  }
}
