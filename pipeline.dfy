/** The two actors composed through one directory, and client scenarios that mirror the
    system's own tests. */
module Pipeline {
  import opened Config
  import opened Events
  import opened QueuesDir
  import opened AccessPolicy
  import opened AccessControl
  import opened RoutePolicy
  import opened ResourceManagement

  /** The access-control pass over an inbox holding one permitted request, whether or not
      the planner is registered. */
  lemma PermittedRequestForwarded(mapping: Policy, qs: Queues, request: Event, sender: Value, route: Value)
    requires AccessControlQueue in qs && ResourceManagerQueue in qs
    requires request.parameters == Dict(map["sender_id" := sender, "route_id" := route])
    requires qs[AccessControlQueue] == [request]
    requires WellFormed(sender, route) && Hashable(sender) && Permitted(mapping, sender, route)
    ensures Drain(mapping, qs) == Drained(qs, [], [TakeMission(sender, route)], [])
  {
    var inbox := qs[AccessControlQueue];
    var tm := TakeMission(sender, route);
    assert Get(request.parameters, "sender_id") == Ok(sender);
    assert Get(request.parameters, "route_id") == Ok(route);
    assert Clean(mapping, qs.Keys, request);
    assert ForwardedOf(mapping, qs.Keys, request) == [tm];
    assert RejectedOf(mapping, qs.Keys, request) == [];
    assert inbox[1..] == [];
    assert Forwarded(mapping, qs.Keys, inbox) == [tm];
    assert Rejected(mapping, qs.Keys, inbox) == [];
    DrainAllClean(mapping, qs);
  }

  /** The resource manager's pass over the forwarded request sends nothing anywhere. */
  lemma ForwardedRequestConsumed(routes: Routes, qs: Queues, tm: Event)
    requires AccessControlQueue in qs && ResourceManagerQueue in qs
    requires qs[ResourceManagerQueue] == []
    ensures TakeOne(routes, Drained(qs, [], [tm], [])) == qs[AccessControlQueue := []]
  {
    var forwarded := Drained(qs, [], [tm], []);
    assert forwarded[ResourceManagerQueue] == [tm];
    InheritedLoopEmitsNothing(routes, forwarded);
    assert [tm][1..] == [];
    DrainedNothing(qs, []);
    var x, y := forwarded[ResourceManagerQueue := []], Drained(qs, [], [], []);
    assert x.Keys == y.Keys;
    forall n | n in x ensures x[n] == y[n] {
    }
  }

  /** A permitted request is forwarded by the access-control pass as one `take_mission`,
      and the resource manager's next pass consumes it without sending anything: the
      control system, the safety block and the planner never hear of it. */
  lemma PermittedRequestStopsAtResourceManager(mapping: Policy, routes: Routes, qs: Queues,
                                               request: Event, sender: Value, route: Value)
    requires AccessControlQueue in qs && ResourceManagerQueue in qs
    requires request.parameters == Dict(map["sender_id" := sender, "route_id" := route])
    requires qs[AccessControlQueue] == [request] && qs[ResourceManagerQueue] == []
    requires WellFormed(sender, route) && Hashable(sender) && Permitted(mapping, sender, route)
    ensures var forwarded := Drain(mapping, qs);
      && forwarded[ResourceManagerQueue] == [TakeMission(sender, route)]
      && TakeOne(routes, forwarded) == qs[AccessControlQueue := []]
  {
    PermittedRequestForwarded(mapping, qs, request, sender, route);
    ForwardedRequestConsumed(routes, qs, TakeMission(sender, route));
  }

  /** With no planner registered, a denied request at the head of the inbox raises on the
      planner lookup: it is consumed, nothing is sent, and the rest of the inbox stays
      queued for the next pass. */
  lemma DeniedRequestWithoutPlanner(mapping: Policy, qs: Queues, sender: Value, route: Value)
    requires AccessControlQueue in qs && PlannerQueue !in qs
    requires qs[AccessControlQueue] != []
    requires qs[AccessControlQueue][0].parameters == Dict(map["sender_id" := sender, "route_id" := route])
    requires WellFormed(sender, route) && Hashable(sender) && !Permitted(mapping, sender, route)
    ensures Drain(mapping, qs) == qs[AccessControlQueue := qs[AccessControlQueue][1..]]
  {
    var request := qs[AccessControlQueue][0];
    assert Get(request.parameters, "sender_id") == Ok(sender);
    assert Get(request.parameters, "route_id") == Ok(route);
    DrainUncleanHead(mapping, qs);
  }

  /** A permitted request puts one `take_mission` on the resource manager's inbox, with the
      access-control queue as its source and exactly the two identifiers as parameters. */
  method AccessControlAllowedScenario() returns (ev: Event)
    ensures ev.source == AccessControlQueue && ev.destination == ResourceManagerQueue
    ensures ev.operation == "take_mission"
    ensures ev.parameters == Dict(map["sender_id" := Str("alice"), "route_id" := Str("route_1")])
  {
    var dir := new QueuesDirectory();
    var alice, route1 := Str("alice"), Str("route_1");
    var acb := new AccessControlBlock(dir, map[alice := [route1, Str("route_2")], Str("bob") := [Str("route_3")]]);
    var rm := new ResourceManager(dir, map[]);
    var o := acb.ProcessAccessRequest(alice, route1);
    assert dir.queues[ResourceManagerQueue] == [TakeMission(alice, route1)];
    var got := dir.GetNowait(ResourceManagerQueue);
    ev := got.value;
  }

  /** A denied request leaves the resource manager's inbox empty. */
  method AccessControlDeniedScenario() returns (resourceQueue: seq<Event>)
    ensures resourceQueue == []
  {
    var dir := new QueuesDirectory();
    var alice := Str("alice");
    var acb := new AccessControlBlock(dir, map[alice := [Str("route_1"), Str("route_2")]]);
    dir.Register(PlannerQueue);
    var rm := new ResourceManager(dir, map[]);
    var o := acb.ProcessAccessRequest(alice, Str("route_3"));
    assert dir.queues[PlannerQueue] == [AccessDenied(alice, Str("route_3"))];
    resourceQueue := dir.queues[ResourceManagerQueue];
  }

  /** Requests with an empty sender or a missing route are dropped, with no planner registered. */
  method AccessControlBadParamsScenario() returns (resourceQueue: seq<Event>)
    ensures resourceQueue == []
  {
    var dir := new QueuesDirectory();
    var acb := new AccessControlBlock(dir, map[Str("alice") := [Str("route_1")]]);
    var rm := new ResourceManager(dir, map[]);
    var o1 := acb.ProcessAccessRequest(Str(""), Str("route_1"));
    var o2 := acb.ProcessAccessRequest(Str("alice"), NoneValue);
    resourceQueue := dir.queues[ResourceManagerQueue];
  }

  /** Dispatching stored route data sends the same mission to both destinations. */
  method ResourceManagerDispatchScenario() returns (toControl: Event, toSafety: Event)
    ensures toControl.operation == "set_mission" && toSafety.operation == "set_mission"
    ensures toControl.parameters == toSafety.parameters
    ensures toControl.parameters == MissionObject(Mission(Tuple([Int(0), Int(0)]),
              List([Tuple([Int(1), Int(1)]), Tuple([Int(2), Int(2)])]), List([Int(10), Int(20)]), Bool(false)))
  {
    var dir := new QueuesDirectory();
    var routeData := Dict(map["home" := Tuple([Int(0), Int(0)]),
                              "waypoints" := List([Tuple([Int(1), Int(1)]), Tuple([Int(2), Int(2)])]),
                              "speed_limits" := List([Int(10), Int(20)]),
                              "armed" := Bool(false)]);
    var rm := new ResourceManager(dir, map[Str("route_1") := routeData]);
    dir.Register(SafetyBlockQueue);
    dir.Register(ControlSystemQueue);
    var mission := Mission(Tuple([Int(0), Int(0)]), List([Tuple([Int(1), Int(1)]), Tuple([Int(2), Int(2)])]),
                           List([Int(10), Int(20)]), Bool(false));
    assert MissionOf(routeData) == Ok(mission);
    var o := rm.DispatchMission(routeData);
    assert dir.queues[ControlSystemQueue] == [SetMission(ControlSystemQueue, MissionObject(mission))];
    assert dir.queues[SafetyBlockQueue] == [SetMission(SafetyBlockQueue, MissionObject(mission))];
    var c := dir.GetNowait(ControlSystemQueue);
    var s := dir.GetNowait(SafetyBlockQueue);
    toControl, toSafety := c.value, s.value;
  }

  /** A rejection reaches the planner with the given reason. */
  method ResourceManagerRejectionScenario() returns (ev: Event)
    ensures ev.operation == "mission_rejected"
    ensures ev.parameters == Dict(map["sender_id" := Str("alice"), "route_id" := Str("route_9"), "reason" := Str("not_found")])
  {
    var dir := new QueuesDirectory();
    var rm := new ResourceManager(dir, map[]);
    dir.Register(PlannerQueue);
    var o := rm.SendRejection(Str("alice"), Str("route_9"), "not_found");
    var got := dir.GetNowait(PlannerQueue);
    ev := got.value;
  }

  /** A stop requested twice ends the loop after the next pass, exactly as one request does. */
  method StopScenario() returns (quit: bool)
    ensures quit
  {
    var dir := new QueuesDirectory();
    var acb := new AccessControlBlock(dir, map[]);
    acb.Stop();
    acb.Stop();
    acb.RunIteration();
    quit := acb.quit;
  }
}
