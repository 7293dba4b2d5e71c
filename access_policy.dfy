/** The access-control decision: validate a request, consult the permission table,
    and either forward the request to the resource manager or reject it to the planner. */
module AccessPolicy {
  import opened Config
  import opened Events
  import opened QueuesDir

  /** Permission table: sender identifier to the route identifiers it may request. */
  type Policy = map<Value, seq<Value>>

  /** Whether the table lets `sender` request `route`; an unknown sender may request nothing. */
  predicate Permitted(mapping: Policy, sender: Value, route: Value) {
    sender in mapping && route in mapping[sender]
  }

  /** Whether `sender` may request `route`; hashing an unhashable sender raises. */
  function CheckPermissions(mapping: Policy, sender: Value, route: Value): (r: Result<bool>)
    ensures r.Err? <==> !Hashable(sender)
    ensures r.Err? ==> r.error == TypeError
    ensures r.Ok? ==> (r.value <==> Permitted(mapping, sender, route))
  {
    if !Hashable(sender) then Err(TypeError)
    else Ok(route in (if sender in mapping then mapping[sender] else []))
  }

  /** The request forwarded to the resource manager: it carries exactly the two
      identifiers, and the receiver reads each back by subscript. */
  function TakeMission(sender: Value, route: Value): (e: Event)
    ensures e.source == AccessControlQueue && e.destination == ResourceManagerQueue
    ensures e.operation == "take_mission"
    ensures e.parameters.Dict? && e.parameters.entries.Keys == {"sender_id", "route_id"}
    ensures Subscript(e.parameters, "sender_id") == Ok(sender) && Subscript(e.parameters, "route_id") == Ok(route)
  {
    Event(AccessControlQueue, ResourceManagerQueue, "take_mission",
          Dict(map["sender_id" := sender, "route_id" := route]))
  }

  /** The rejection sent to the planner when permission is denied. */
  function AccessDenied(sender: Value, route: Value): (e: Event)
    ensures e.source == AccessControlQueue && e.destination == PlannerQueue
    ensures e.operation == "mission_rejected"
    ensures Subscript(e.parameters, "reason") == Ok(Str("access_denied"))
    ensures Subscript(e.parameters, "sender_id") == Ok(sender) && Subscript(e.parameters, "route_id") == Ok(route)
  {
    RejectionEvent(AccessControlQueue, PlannerQueue, sender, route, "access_denied")
  }

  /** Whether a request passes the validity check (both identifiers truthy): a missing
      identifier (None), an empty string, zero, false or an empty container is refused. */
  predicate WellFormed(sender: Value, route: Value)
    ensures WellFormed(sender, route) ==>
      && sender != NoneValue && route != NoneValue
      && sender != Str("") && route != Str("")
      && sender != Int(0) && route != Int(0)
  {
    Truthy(sender) && Truthy(route)
  }

  /** One access request against the directory `qs`: the directory afterwards, or the
      exception raised (in which case nothing was sent). */
  function Process(mapping: Policy, qs: Queues, sender: Value, route: Value): (r: Result<Queues>)
    // an invalid request is dropped silently
    ensures !WellFormed(sender, route) ==> r == Ok(qs)
    // the only queues that can change are the resource manager's and the planner's
    ensures r.Ok? ==> r.value.Keys == qs.Keys
    ensures r.Ok? ==> forall n :: n in qs && n != ResourceManagerQueue && n != PlannerQueue ==> r.value[n] == qs[n]
    // permitted: exactly one take_mission to the resource manager, nothing to the planner
    ensures WellFormed(sender, route) && Hashable(sender) && Permitted(mapping, sender, route) ==>
      && (r.Ok? <==> ResourceManagerQueue in qs)
      && (ResourceManagerQueue !in qs ==> r == Err(QueueNotFound(ResourceManagerQueue)))
      && (r.Ok? ==> r.value[ResourceManagerQueue] == qs[ResourceManagerQueue] + [TakeMission(sender, route)])
      && (r.Ok? && PlannerQueue in qs ==> r.value[PlannerQueue] == qs[PlannerQueue])
    // denied (including an unknown sender): exactly one rejection to the planner
    ensures WellFormed(sender, route) && Hashable(sender) && !Permitted(mapping, sender, route) ==>
      && (r.Ok? <==> PlannerQueue in qs)
      && (PlannerQueue !in qs ==> r == Err(QueueNotFound(PlannerQueue)))
      && (r.Ok? ==> r.value[PlannerQueue] == qs[PlannerQueue] + [AccessDenied(sender, route)])
      && (r.Ok? && ResourceManagerQueue in qs ==> r.value[ResourceManagerQueue] == qs[ResourceManagerQueue])
    // a valid request with an unhashable sender raises on the permission lookup, before any send
    ensures WellFormed(sender, route) && !Hashable(sender) ==> r == Err(TypeError)
    // failures: an unhashable sender, or an unbound destination
    ensures r.Err? ==> WellFormed(sender, route) && r.error in {TypeError, QueueNotFound(ResourceManagerQueue), QueueNotFound(PlannerQueue)}
  {
    if !WellFormed(sender, route) then Ok(qs)
    else
      match CheckPermissions(mapping, sender, route)
      case Err(e) => Err(e)
      case Ok(permitted) =>
        if permitted then Send(qs, ResourceManagerQueue, TakeMission(sender, route))
        else Send(qs, PlannerQueue, AccessDenied(sender, route))
  }

  /** A valid request that is handled produces exactly one outbound event, never one of each:
      together the two destination queues grow by exactly one event, and one of them is unchanged. */
  lemma ExactlyOneOutbound(mapping: Policy, qs: Queues, sender: Value, route: Value)
    requires WellFormed(sender, route)
    requires ResourceManagerQueue in qs && PlannerQueue in qs
    requires Process(mapping, qs, sender, route).Ok?
    ensures var after := Process(mapping, qs, sender, route).value;
      && |after[ResourceManagerQueue]| + |after[PlannerQueue]| == |qs[ResourceManagerQueue]| + |qs[PlannerQueue]| + 1
      && (after[ResourceManagerQueue] == qs[ResourceManagerQueue] || after[PlannerQueue] == qs[PlannerQueue])
  {
    assert Hashable(sender);
  }
}
