/** The resource manager's domain logic: route lookup, mission construction, and the
    two broadcast variants of mission dispatch. */
module RoutePolicy {
  import opened Config
  import opened Events
  import opened QueuesDir

  /** Route storage: route identifier to stored route data. */
  type Routes = map<Value, Value>

  /** The resource manager's own name, under which its inbox is bound and which is the
      source of the events it sends; it is the configured resource-manager queue name. */
  const EventSourceName: string := ResourceManagerQueue

  /** The stored data of a route; absent routes raise a ValueError, and an unhashable
      identifier cannot be looked up at all. */
  function GetRouteData(routes: Routes, routeId: Value): (r: Result<Value>)
    ensures r.Ok? <==> Hashable(routeId) && routeId in routes
    ensures r.Ok? ==> r.value == routes[routeId]
    ensures !Hashable(routeId) ==> r == Err(TypeError)
    ensures Hashable(routeId) && routeId !in routes ==> r == Err(ValueError)
  {
    if !Hashable(routeId) then Err(TypeError)
    else if routeId !in routes then Err(ValueError)
    else Ok(routes[routeId])
  }

  /** The four keys a route's data must hold, in the order they are read. */
  const MissionKeys: seq<string> := ["home", "waypoints", "speed_limits", "armed"]

  /** A mission built from route data: its four fields are the values stored under the
      four keys; a non-dict or a missing key raises (the first missing key is reported). */
  function MissionOf(routeData: Value): (r: Result<Mission>)
    ensures r.Ok? <==> routeData.Dict? && forall key <- MissionKeys :: key in routeData.entries
    ensures r.Ok? ==>
      && r.value.home == routeData.entries["home"]
      && r.value.waypoints == routeData.entries["waypoints"]
      && r.value.speedLimits == routeData.entries["speed_limits"]
      && r.value.armed == routeData.entries["armed"]
    ensures routeData.Dict? && "home" !in routeData.entries ==> r == Err(KeyError("home"))
  {
    var home :- Subscript(routeData, "home");
    var waypoints :- Subscript(routeData, "waypoints");
    var speedLimits :- Subscript(routeData, "speed_limits");
    var armed :- Subscript(routeData, "armed");
    Ok(Mission(home, waypoints, speedLimits, armed))
  }

  /** A `set_mission` event for `destination`, sent under the resource manager's own name
      and carrying `parameters` unchanged. */
  function SetMission(destination: string, parameters: Value): (e: Event)
    ensures e.source == ResourceManagerQueue && e.destination == destination
    ensures e.operation == "set_mission" && e.parameters == parameters
  {
    Event(EventSourceName, destination, "set_mission", parameters)
  }

  /** Both destination queues must be bound before anything is sent. */
  predicate DestinationsBound(qs: Queues) {
    ControlSystemQueue in qs && SafetyBlockQueue in qs
  }

  /** The concrete dispatch: look both destinations up, build the mission from the route
      data, and append a `set_mission` carrying that same mission to the control system's
      queue and to the safety block's queue; any failure comes before the first send. */
  function Dispatch(qs: Queues, routeData: Value): (r: Result<Queues>)
    ensures r.Ok? <==> DestinationsBound(qs) && MissionOf(routeData).Ok?
    ensures r.Ok? ==>
      var mission := MissionObject(MissionOf(routeData).value);
      && r.value.Keys == qs.Keys
      && r.value[ControlSystemQueue] == qs[ControlSystemQueue] + [SetMission(ControlSystemQueue, mission)]
      && r.value[SafetyBlockQueue] == qs[SafetyBlockQueue] + [SetMission(SafetyBlockQueue, mission)]
      && forall n :: n in qs && n != ControlSystemQueue && n != SafetyBlockQueue ==> r.value[n] == qs[n]
  {
    if ControlSystemQueue !in qs then Err(QueueNotFound(ControlSystemQueue))
    else if SafetyBlockQueue !in qs then Err(QueueNotFound(SafetyBlockQueue))
    else
      var mission :- MissionOf(routeData);
      var withControl := qs[ControlSystemQueue := qs[ControlSystemQueue] + [SetMission(ControlSystemQueue, MissionObject(mission))]];
      Ok(withControl[SafetyBlockQueue := withControl[SafetyBlockQueue] + [SetMission(SafetyBlockQueue, MissionObject(mission))]])
  }

  /** The abstract base's dispatch: the same two `set_mission` sends, carrying the mission
      data unchanged as their parameters. */
  function BaseDispatch(qs: Queues, missionData: Value): (r: Result<Queues>)
    ensures r.Ok? <==> DestinationsBound(qs)
    ensures r.Ok? ==>
      && r.value.Keys == qs.Keys
      && r.value[ControlSystemQueue] == qs[ControlSystemQueue] + [SetMission(ControlSystemQueue, missionData)]
      && r.value[SafetyBlockQueue] == qs[SafetyBlockQueue] + [SetMission(SafetyBlockQueue, missionData)]
      && forall n :: n in qs && n != ControlSystemQueue && n != SafetyBlockQueue ==> r.value[n] == qs[n]
  {
    if ControlSystemQueue !in qs then Err(QueueNotFound(ControlSystemQueue))
    else if SafetyBlockQueue !in qs then Err(QueueNotFound(SafetyBlockQueue))
    else
      var withControl := qs[ControlSystemQueue := qs[ControlSystemQueue] + [SetMission(ControlSystemQueue, missionData)]];
      Ok(withControl[SafetyBlockQueue := withControl[SafetyBlockQueue] + [SetMission(SafetyBlockQueue, missionData)]])
  }

  /** The rejection the resource manager sends to the planner, under its own name. */
  function RouteRejection(sender: Value, route: Value, reason: string): (e: Event)
    ensures e.source == ResourceManagerQueue && e.destination == PlannerQueue
    ensures e.operation == "mission_rejected"
    ensures Subscript(e.parameters, "reason") == Ok(Str(reason))
    ensures Subscript(e.parameters, "sender_id") == Ok(sender) && Subscript(e.parameters, "route_id") == Ok(route)
  {
    RejectionEvent(EventSourceName, PlannerQueue, sender, route, reason)
  }
}
