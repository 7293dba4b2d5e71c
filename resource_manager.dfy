/** The resource-manager actor: its control discipline, its one-event-per-pass loop, and
    the handlers that dispatch missions and send rejections through the shared directory. */
module ResourceManagement {
  import opened Config
  import opened Events
  import opened Control
  import opened QueuesDir
  import opened RoutePolicy

  /** What the loop hands to the mission dispatch: exactly the sender and the route's data,
      under keys that are none of the four mission keys. */
  function MissionData(sender: Value, routeData: Value): (v: Value)
    ensures v.Dict? && v.entries.Keys == {"sender_id", "route"}
    ensures Subscript(v, "sender_id") == Ok(sender) && Subscript(v, "route") == Ok(routeData)
    ensures forall key <- MissionKeys :: key !in v.entries
  {
    Dict(map["sender_id" := sender, "route" := routeData])
  }

  /** Handle the head of the inbox, if any: read `route_id`, look the route up, read
      `sender_id`, wrap both and dispatch. Any exception is logged and swallowed: the event
      is consumed and nothing is sent. */
  function TakeOne(routes: Routes, qs: Queues): (r: Queues)
    requires ResourceManagerQueue in qs
    ensures r.Keys == qs.Keys
    // at most one inbox event is consumed per pass
    ensures qs[ResourceManagerQueue] == [] ==> r == qs
    ensures qs[ResourceManagerQueue] != [] ==> r[ResourceManagerQueue] == qs[ResourceManagerQueue][1..]
    // nothing but the inbox and the two dispatch destinations can change
    ensures forall n :: n in qs && n !in {ResourceManagerQueue, ControlSystemQueue, SafetyBlockQueue} ==> r[n] == qs[n]
  {
    var inbox := qs[ResourceManagerQueue];
    if inbox == [] then qs
    else
      var rest := qs[ResourceManagerQueue := inbox[1..]];
      var e := inbox[0];
      match Subscript(e.parameters, "route_id")
      case Err(_) => rest
      case Ok(routeId) =>
        match GetRouteData(routes, routeId)
        case Err(_) => rest
        case Ok(routeData) =>
          match Subscript(e.parameters, "sender_id")
          case Err(_) => rest
          case Ok(sender) => After(Dispatch(rest, MissionData(sender, routeData)), rest)
  }

  /** The wrapped payload never holds the mission keys, so the concrete dispatch always
      raises a KeyError on `home` when the loop calls it. */
  lemma MissionDataHasNoMission(sender: Value, routeData: Value)
    ensures MissionOf(MissionData(sender, routeData)) == Err(KeyError("home"))
  {
    assert "home" !in MissionData(sender, routeData).entries;
  }

  /** Through the loop, a pass only ever consumes the head of the inbox: no `set_mission`
      reaches the control system or the safety block, whatever the event and the storage. */
  lemma InheritedLoopEmitsNothing(routes: Routes, qs: Queues)
    requires ResourceManagerQueue in qs
    ensures var inbox := qs[ResourceManagerQueue];
      TakeOne(routes, qs) == if inbox == [] then qs else qs[ResourceManagerQueue := inbox[1..]]
  {
    var inbox := qs[ResourceManagerQueue];
    if inbox != [] {
      var e := inbox[0];
      var rest := qs[ResourceManagerQueue := inbox[1..]];
      var routeId := Subscript(e.parameters, "route_id");
      var sender := Subscript(e.parameters, "sender_id");
      if routeId.Ok? && GetRouteData(routes, routeId.value).Ok? && sender.Ok? {
        MissionDataHasNoMission(sender.value, GetRouteData(routes, routeId.value).value);
        assert Dispatch(rest, MissionData(sender.value, GetRouteData(routes, routeId.value).value)).Err?;
      }
    }
  }

  class ResourceManager {
    const dir: QueuesDirectory
    const routesStorage: Routes
    var control: seq<ControlEvent>
    var quit: bool

    /** The actor's inbox is bound in the directory under its well-known name. */
    ghost predicate Valid()
      reads dir
    {
      ResourceManagerQueue in dir.queues
    }

    /** Bind a fresh, empty inbox under the actor's name; the actor starts running. */
    constructor (dir: QueuesDirectory, routesStorage: Routes)
      modifies dir
      ensures this.dir == dir && this.routesStorage == routesStorage
      ensures control == [] && !quit
      ensures dir.queues == old(dir.queues)[ResourceManagerQueue := []]
      ensures Valid()
    {
      this.dir := dir;
      this.routesStorage := routesStorage;
      control := [];
      quit := false;
      new;
      dir.Register(EventSourceName);
    }

    /** Take at most one control event; a stop latches `quit`. */
    method CheckControlQ()
      modifies this
      ensures (quit, control) == CheckControl(old(quit), old(control))
    {
      if control != [] {
        var request := control[0];
        control := control[1..];
        if request.operation == "stop" {
          quit := true;
        }
      }
    }

    /** Request a stop: one stop event is queued on the control channel and nothing else changes. */
    method Stop()
      modifies this
      ensures control == old(control) + [StopEvent]
      ensures quit == old(quit)
    {
      control := control + [StopEvent];
    }

    /** One pass of the polling loop: check the control channel, then handle at most one
        inbox event. */
    method RunIteration()
      requires Valid()
      modifies this, dir
      ensures Valid()
      ensures (quit, control) == CheckControl(old(quit), old(control))
      ensures dir.queues == TakeOne(routesStorage, old(dir.queues))
    {
      CheckControlQ();
      var next := dir.GetNowait(EventSourceName);
      if next.Err? {
        return;  // the inbox is empty
      }
      var params := next.value.parameters;
      var routeId := Subscript(params, "route_id");
      if routeId.Err? {
        return;  // logged
      }
      var routeData := GetRouteData(routesStorage, routeId.value);
      if routeData.Err? {
        return;  // logged
      }
      var sender := Subscript(params, "sender_id");
      if sender.Err? {
        return;  // logged
      }
      var o := DispatchMission(MissionData(sender.value, routeData.value));
    }

    /** The concrete mission dispatch: two `set_mission` sends carrying the same mission. */
    method DispatchMission(routeData: Value) returns (o: Outcome)
      modifies dir
      ensures o == OutcomeOf(Dispatch(old(dir.queues), routeData))
      ensures dir.queues == After(Dispatch(old(dir.queues), routeData), old(dir.queues))
    {
      var controlQ := dir.GetQueue(ControlSystemQueue);
      if controlQ.Err? {
        return Raised(controlQ.error);
      }
      var safetyQ := dir.GetQueue(SafetyBlockQueue);
      if safetyQ.Err? {
        return Raised(safetyQ.error);
      }
      var mission := MissionOf(routeData);
      if mission.Err? {
        return Raised(mission.error);
      }
      dir.Put(controlQ.value, SetMission(ControlSystemQueue, MissionObject(mission.value)));
      dir.Put(safetyQ.value, SetMission(SafetyBlockQueue, MissionObject(mission.value)));
      o := Done;
    }

    /** The base class's mission dispatch: two `set_mission` sends carrying the mission data. */
    method BaseDispatchMission(missionData: Value) returns (o: Outcome)
      modifies dir
      ensures o == OutcomeOf(BaseDispatch(old(dir.queues), missionData))
      ensures dir.queues == After(BaseDispatch(old(dir.queues), missionData), old(dir.queues))
    {
      var controlQ := dir.GetQueue(ControlSystemQueue);
      if controlQ.Err? {
        return Raised(controlQ.error);
      }
      var safetyQ := dir.GetQueue(SafetyBlockQueue);
      if safetyQ.Err? {
        return Raised(safetyQ.error);
      }
      dir.Put(controlQ.value, SetMission(ControlSystemQueue, missionData));
      dir.Put(safetyQ.value, SetMission(SafetyBlockQueue, missionData));
      o := Done;
    }

    /** Send a `mission_rejected` event with the given reason to the planner. */
    method SendRejection(sender: Value, route: Value, reason: string) returns (o: Outcome)
      modifies dir
      ensures var r := Send(old(dir.queues), PlannerQueue, RouteRejection(sender, route, reason));
        o == OutcomeOf(r) && dir.queues == After(r, old(dir.queues))
    {
      var plannerQ := dir.GetQueue(PlannerQueue);
      if plannerQ.Err? {
        return Raised(plannerQ.error);
      }
      dir.Put(plannerQ.value, RouteRejection(sender, route, reason));
      o := Done;
    }
  }
}
