/** The access-control actor: its control discipline, its inbox drain loop, and the
    handlers that forward or reject requests through the shared directory. */
module AccessControl {
  import opened Config
  import opened Events
  import opened Control
  import opened QueuesDir
  import opened AccessPolicy

  /** Hand one inbox event to the handler: read `sender_id` and `route_id` with `.get`
      (a missing key reads as None), then process the request. */
  function Deliver(mapping: Policy, qs: Queues, e: Event): (r: Result<Queues>)
    // the only exceptions: no `.get` on the parameters, an unhashable sender, an unbound destination
    ensures r.Err? ==> r.error in {AttributeError("get"), TypeError, QueueNotFound(ResourceManagerQueue), QueueNotFound(PlannerQueue)}
  {
    match Get(e.parameters, "sender_id")
    case Err(err) => Err(err)
    case Ok(sender) =>
      match Get(e.parameters, "route_id")
      case Err(err) => Err(err)
      case Ok(route) => Process(mapping, qs, sender, route)
  }

  /** How an inbox event reaches the handler: parameters that are not a dict have no `.get`
      and raise; a missing identifier reads as None, so the request is dropped as invalid;
      otherwise the handler gets the two stored identifiers. */
  lemma DeliverReads(mapping: Policy, qs: Queues, e: Event)
    ensures !e.parameters.Dict? ==> Deliver(mapping, qs, e) == Err(AttributeError("get"))
    ensures e.parameters.Dict? && ("sender_id" !in e.parameters.entries || "route_id" !in e.parameters.entries) ==>
      Deliver(mapping, qs, e) == Ok(qs)
    ensures e.parameters.Dict? && "sender_id" in e.parameters.entries && "route_id" in e.parameters.entries ==>
      Deliver(mapping, qs, e) == Process(mapping, qs, e.parameters.entries["sender_id"], e.parameters.entries["route_id"])
  {
  }

  /** Handling a request changes only the two destination queues. */
  lemma DeliverFrame(mapping: Policy, qs: Queues, e: Event)
    ensures var r := Deliver(mapping, qs, e);
      r.Ok? ==> r.value.Keys == qs.Keys && forall n :: n in qs && n != ResourceManagerQueue && n != PlannerQueue ==> r.value[n] == qs[n]
  {
  }

  /** The inbox drain of one loop iteration: take events in FIFO order and handle each;
      the drain ends when the inbox is empty or when handling an event raises (that event
      is already consumed). */
  function Drain(mapping: Policy, qs: Queues): (r: Queues)
    requires AccessControlQueue in qs
    ensures r.Keys == qs.Keys
    // what is left of the inbox is a suffix of it: events are consumed from the head, in order
    ensures |r[AccessControlQueue]| <= |qs[AccessControlQueue]|
    ensures r[AccessControlQueue] == qs[AccessControlQueue][|qs[AccessControlQueue]| - |r[AccessControlQueue]|..]
    // only the inbox, the resource manager's queue and the planner's queue can change
    ensures forall n :: n in qs && n !in {AccessControlQueue, ResourceManagerQueue, PlannerQueue} ==> r[n] == qs[n]
    decreases |qs[AccessControlQueue]|
  {
    var inbox := qs[AccessControlQueue];
    if inbox == [] then qs
    else
      var rest := qs[AccessControlQueue := inbox[1..]];
      match Deliver(mapping, rest, inbox[0])
      case Err(_) => rest
      case Ok(next) =>
        DeliverFrame(mapping, rest, inbox[0]);
        assert next[AccessControlQueue] == inbox[1..];
        var r := Drain(mapping, next);
        assert r[AccessControlQueue] == inbox[|inbox| - |r[AccessControlQueue]|..];
        r
  }

  /** One step of the drain: the head event is consumed, then either its handling raised
      and the drain is over, or the drain goes on from the directory the handler left. */
  lemma DrainStep(mapping: Policy, qs: Queues)
    requires AccessControlQueue in qs && qs[AccessControlQueue] != []
    ensures var inbox := qs[AccessControlQueue];
      var rest := qs[AccessControlQueue := inbox[1..]];
      var handled := Deliver(mapping, rest, inbox[0]);
      && (handled.Ok? ==> AccessControlQueue in handled.value)
      && Drain(mapping, qs) == if handled.Ok? then Drain(mapping, handled.value) else rest
  {
  }

  /** Whether handling `e` raises nothing in a directory that binds `names`: its parameters
      are a dict, and for a valid request the sender is hashable and the destination the
      decision picks is bound. */
  predicate Clean(mapping: Policy, names: set<string>, e: Event) {
    && e.parameters.Dict?
    && var sender := Get(e.parameters, "sender_id").value;
       var route := Get(e.parameters, "route_id").value;
       WellFormed(sender, route) ==>
         && Hashable(sender)
         && (if Permitted(mapping, sender, route) then ResourceManagerQueue in names else PlannerQueue in names)
  }

  /** The events a clean inbox event sends to the resource manager. */
  function ForwardedOf(mapping: Policy, names: set<string>, e: Event): seq<Event> {
    if !Clean(mapping, names, e) then []
    else
      var sender := Get(e.parameters, "sender_id").value;
      var route := Get(e.parameters, "route_id").value;
      if WellFormed(sender, route) && Permitted(mapping, sender, route)
      then [TakeMission(sender, route)] else []
  }

  /** The events a clean inbox event sends to the planner. */
  function RejectedOf(mapping: Policy, names: set<string>, e: Event): seq<Event> {
    if !Clean(mapping, names, e) then []
    else
      var sender := Get(e.parameters, "sender_id").value;
      var route := Get(e.parameters, "route_id").value;
      if WellFormed(sender, route) && !Permitted(mapping, sender, route)
      then [AccessDenied(sender, route)] else []
  }

  function Forwarded(mapping: Policy, names: set<string>, es: seq<Event>): seq<Event> {
    if es == [] then [] else ForwardedOf(mapping, names, es[0]) + Forwarded(mapping, names, es[1..])
  }

  function Rejected(mapping: Policy, names: set<string>, es: seq<Event>): seq<Event> {
    if es == [] then [] else RejectedOf(mapping, names, es[0]) + Rejected(mapping, names, es[1..])
  }

  /** How many events at the head of `es` are clean. */
  function CleanCount(mapping: Policy, names: set<string>, es: seq<Event>): (k: nat)
    ensures k <= |es|
    ensures forall i :: 0 <= i < k ==> Clean(mapping, names, es[i])
    ensures k < |es| ==> !Clean(mapping, names, es[k])
  {
    if es == [] || !Clean(mapping, names, es[0]) then 0 else 1 + CleanCount(mapping, names, es[1..])
  }

  /** The clean prefix ends exactly at the first event that is not clean. */
  lemma CleanCountAt(mapping: Policy, names: set<string>, es: seq<Event>, j: nat)
    requires j < |es|
    requires forall i :: 0 <= i < j ==> Clean(mapping, names, es[i])
    requires !Clean(mapping, names, es[j])
    ensures CleanCount(mapping, names, es) == j
  {
    var k := CleanCount(mapping, names, es);
    if k < j {
      assert false;
    } else if k > j {
      assert false;
    }
  }

  /** `qs` with `es` appended to the queue bound under `name`; an unbound name stays unbound. */
  function Append(qs: Queues, name: string, es: seq<Event>): Queues {
    if name in qs then qs[name := qs[name] + es] else qs
  }

  /** Handling a clean event appends its outputs to the destination queues and changes
      nothing else; handling any other event raises. */
  lemma DeliverOutcome(mapping: Policy, qs: Queues, e: Event)
    ensures Clean(mapping, qs.Keys, e) ==>
      Deliver(mapping, qs, e) == Ok(Append(Append(qs, ResourceManagerQueue, ForwardedOf(mapping, qs.Keys, e)),
                                           PlannerQueue, RejectedOf(mapping, qs.Keys, e)))
    ensures !Clean(mapping, qs.Keys, e) ==> Deliver(mapping, qs, e).Err?
  {
    if Clean(mapping, qs.Keys, e) {
      var sender := Get(e.parameters, "sender_id").value;
      var route := Get(e.parameters, "route_id").value;
      var expected := Append(Append(qs, ResourceManagerQueue, ForwardedOf(mapping, qs.Keys, e)),
                             PlannerQueue, RejectedOf(mapping, qs.Keys, e));
      var r := Process(mapping, qs, sender, route);
      assert r.Ok?;
      assert r.value.Keys == expected.Keys;
      forall n | n in expected
        ensures r.value[n] == expected[n]
      {
      }
      assert r.value == expected;
    }
  }

  /** The directory a drain leaves behind, given what is left of the inbox and what was sent. */
  function Drained(qs: Queues, left: seq<Event>, fwd: seq<Event>, rej: seq<Event>): Queues {
    Append(Append(qs[AccessControlQueue := left], ResourceManagerQueue, fwd), PlannerQueue, rej)
  }

  /** A drain binds the same names and leaves `left` in the inbox. */
  lemma DrainedShape(qs: Queues, left: seq<Event>, fwd: seq<Event>, rej: seq<Event>)
    requires AccessControlQueue in qs
    ensures Drained(qs, left, fwd, rej).Keys == qs.Keys
    ensures Drained(qs, left, fwd, rej)[AccessControlQueue] == left
  {
  }

  /** A drain that sent nothing only shortened the inbox. */
  lemma DrainedNothing(qs: Queues, left: seq<Event>)
    ensures Drained(qs, left, [], []) == qs[AccessControlQueue := left]
  {
    var x, y := Drained(qs, left, [], []), qs[AccessControlQueue := left];
    assert x.Keys == y.Keys;
    forall n | n in x ensures x[n] == y[n] {
      assert y[n] + [] == y[n];
    }
  }

  /** Two drain steps in a row leave what one drain sending both steps' output leaves. */
  lemma DrainedTwice(qs: Queues, l1: seq<Event>, f1: seq<Event>, r1: seq<Event>,
                     l2: seq<Event>, f2: seq<Event>, r2: seq<Event>)
    ensures Drained(Drained(qs, l1, f1, r1), l2, f2, r2) == Drained(qs, l2, f1 + f2, r1 + r2)
  {
    var x, y := Drained(Drained(qs, l1, f1, r1), l2, f2, r2), Drained(qs, l2, f1 + f2, r1 + r2);
    assert x.Keys == y.Keys;
    forall n | n in x ensures x[n] == y[n] {
      if n == ResourceManagerQueue {
        assert qs[n] + f1 + f2 == qs[n] + (f1 + f2);
      } else if n == PlannerQueue {
        assert qs[n] + r1 + r2 == qs[n] + (r1 + r2);
      }
    }
  }

  /** One step of the drain on a clean head event. */
  lemma DrainCleanHead(mapping: Policy, qs: Queues)
    requires AccessControlQueue in qs
    requires qs[AccessControlQueue] != [] && Clean(mapping, qs.Keys, qs[AccessControlQueue][0])
    ensures var e := qs[AccessControlQueue][0];
      Drain(mapping, qs) ==
      Drain(mapping, Drained(qs, qs[AccessControlQueue][1..], ForwardedOf(mapping, qs.Keys, e), RejectedOf(mapping, qs.Keys, e)))
  {
    var inbox := qs[AccessControlQueue];
    var e := inbox[0];
    var rest := qs[AccessControlQueue := inbox[1..]];
    assert rest.Keys == qs.Keys;
    DeliverOutcome(mapping, rest, e);
    var next := Drained(qs, inbox[1..], ForwardedOf(mapping, qs.Keys, e), RejectedOf(mapping, qs.Keys, e));
    assert Deliver(mapping, rest, e) == Ok(next);
  }

  /** One step of the drain on a head event whose handling raises. */
  lemma DrainUncleanHead(mapping: Policy, qs: Queues)
    requires AccessControlQueue in qs
    requires qs[AccessControlQueue] != [] && !Clean(mapping, qs.Keys, qs[AccessControlQueue][0])
    ensures Drain(mapping, qs) == qs[AccessControlQueue := qs[AccessControlQueue][1..]]
  {
    var inbox := qs[AccessControlQueue];
    var rest := qs[AccessControlQueue := inbox[1..]];
    assert rest.Keys == qs.Keys;
    DeliverOutcome(mapping, rest, inbox[0]);
  }

  /** The closed form of a drain of `qs`, as stated by DrainClosedForm. */
  function DrainedAt(mapping: Policy, qs: Queues): Queues
    requires AccessControlQueue in qs
  {
    var inbox := qs[AccessControlQueue];
    var k := CleanCount(mapping, qs.Keys, inbox);
    Drained(qs, if k == |inbox| then [] else inbox[k + 1..],
            Forwarded(mapping, qs.Keys, inbox[..k]), Rejected(mapping, qs.Keys, inbox[..k]))
  }

  /** Below a clean head event, the clean prefix is one longer than that of the rest, its
      outputs are the head's followed by the rest's, and what is left after it agrees. */
  lemma CleanPrefixStep(mapping: Policy, names: set<string>, inbox: seq<Event>)
    requires inbox != [] && Clean(mapping, names, inbox[0])
    ensures var k, k' := CleanCount(mapping, names, inbox), CleanCount(mapping, names, inbox[1..]);
      && k == k' + 1
      && Forwarded(mapping, names, inbox[..k]) == ForwardedOf(mapping, names, inbox[0]) + Forwarded(mapping, names, inbox[1..][..k'])
      && Rejected(mapping, names, inbox[..k]) == RejectedOf(mapping, names, inbox[0]) + Rejected(mapping, names, inbox[1..][..k'])
      && (if k' == |inbox[1..]| then [] else inbox[1..][k' + 1..]) == (if k == |inbox| then [] else inbox[k + 1..])
  {
    var k, k' := CleanCount(mapping, names, inbox), CleanCount(mapping, names, inbox[1..]);
    assert k == k' + 1;
    var prefix := inbox[..k];
    assert prefix != [] && prefix[0] == inbox[0] && prefix[1..] == inbox[1..][..k'];
    assert Forwarded(mapping, names, prefix) == ForwardedOf(mapping, names, prefix[0]) + Forwarded(mapping, names, prefix[1..]);
    assert Rejected(mapping, names, prefix) == RejectedOf(mapping, names, prefix[0]) + Rejected(mapping, names, prefix[1..]);
    assert k' < |inbox[1..]| ==> inbox[1..][k' + 1..] == inbox[k + 1..];
  }

  /** The closed form after a clean head event, from the closed form for the rest of the inbox. */
  lemma DrainedAtCleanHead(mapping: Policy, qs: Queues)
    requires AccessControlQueue in qs
    requires qs[AccessControlQueue] != [] && Clean(mapping, qs.Keys, qs[AccessControlQueue][0])
    ensures var e := qs[AccessControlQueue][0];
      var next := Drained(qs, qs[AccessControlQueue][1..], ForwardedOf(mapping, qs.Keys, e), RejectedOf(mapping, qs.Keys, e));
      DrainedAt(mapping, next) == DrainedAt(mapping, qs)
  {
    var names := qs.Keys;
    var inbox := qs[AccessControlQueue];
    var e := inbox[0];
    var fe, re := ForwardedOf(mapping, names, e), RejectedOf(mapping, names, e);
    var next := Drained(qs, inbox[1..], fe, re);
    DrainedShape(qs, inbox[1..], fe, re);
    CleanPrefixStep(mapping, names, inbox);
    var k' := CleanCount(mapping, names, inbox[1..]);
    var fwd, rej := Forwarded(mapping, names, inbox[1..][..k']), Rejected(mapping, names, inbox[1..][..k']);
    var left := if k' == |inbox[1..]| then [] else inbox[1..][k' + 1..];
    assert DrainedAt(mapping, next) == Drained(next, left, fwd, rej);
    DrainedTwice(qs, inbox[1..], fe, re, left, fwd, rej);
  }

  /** The whole drain in closed form: with `k` the number of clean events at the head of
      the inbox, the handler ran on exactly those `k` events in FIFO order, their outputs
      were appended in that order to the destinations they picked, the inbox lost them (and
      the event after them, whose handling raised), and later events stay queued in order.
      When every event is clean the inbox ends empty. Whether an event is clean depends on
      the names the directory binds: a request for an unbound destination raises. */
  lemma {:induction false} DrainClosedForm(mapping: Policy, qs: Queues)
    requires AccessControlQueue in qs
    ensures Drain(mapping, qs) == DrainedAt(mapping, qs)
    decreases |qs[AccessControlQueue]|
  {
    var inbox := qs[AccessControlQueue];
    var k := CleanCount(mapping, qs.Keys, inbox);
    if inbox == [] {
      assert inbox[..k] == [];
      DrainedNothing(qs, []);
      assert qs[AccessControlQueue := []] == qs;
    } else if !Clean(mapping, qs.Keys, inbox[0]) {
      DrainUncleanHead(mapping, qs);
      assert inbox[..k] == [];
      DrainedNothing(qs, inbox[1..]);
    } else {
      var e := inbox[0];
      var next := Drained(qs, inbox[1..], ForwardedOf(mapping, qs.Keys, e), RejectedOf(mapping, qs.Keys, e));
      DrainCleanHead(mapping, qs);
      DrainedShape(qs, inbox[1..], ForwardedOf(mapping, qs.Keys, e), RejectedOf(mapping, qs.Keys, e));
      DrainClosedForm(mapping, next);
      DrainedAtCleanHead(mapping, qs);
    }
  }

  /** With no handler errors one iteration empties the inbox, and every event's output is
      appended, in inbox order. */
  lemma DrainAllClean(mapping: Policy, qs: Queues)
    requires AccessControlQueue in qs
    requires forall i :: 0 <= i < |qs[AccessControlQueue]| ==> Clean(mapping, qs.Keys, qs[AccessControlQueue][i])
    ensures var inbox := qs[AccessControlQueue];
      Drain(mapping, qs) == Drained(qs, [], Forwarded(mapping, qs.Keys, inbox), Rejected(mapping, qs.Keys, inbox))
  {
    var inbox := qs[AccessControlQueue];
    DrainClosedForm(mapping, qs);
    assert CleanCount(mapping, qs.Keys, inbox) == |inbox|;
    assert inbox[..|inbox|] == inbox;
  }

  /** When handling the event at position `j` raises, that event is consumed, the events
      before it were handled in order, and the events after it stay queued in order. */
  lemma DrainStopsAtFailure(mapping: Policy, qs: Queues, j: nat)
    requires AccessControlQueue in qs
    requires j < |qs[AccessControlQueue]|
    requires forall i :: 0 <= i < j ==> Clean(mapping, qs.Keys, qs[AccessControlQueue][i])
    requires !Clean(mapping, qs.Keys, qs[AccessControlQueue][j])
    ensures var inbox := qs[AccessControlQueue];
      Drain(mapping, qs) ==
      Drained(qs, inbox[j + 1..], Forwarded(mapping, qs.Keys, inbox[..j]), Rejected(mapping, qs.Keys, inbox[..j]))
  {
    CleanCountAt(mapping, qs.Keys, qs[AccessControlQueue], j);
    DrainClosedForm(mapping, qs);
  }

  class AccessControlBlock {
    const dir: QueuesDirectory
    const allowedMapping: Policy
    var control: seq<ControlEvent>
    var quit: bool

    /** The actor's inbox is bound in the directory under its well-known name. */
    ghost predicate Valid()
      reads dir
    {
      AccessControlQueue in dir.queues
    }

    /** Bind a fresh, empty inbox under the actor's name; the actor starts running. */
    constructor (dir: QueuesDirectory, allowedMapping: Policy)
      modifies dir
      ensures this.dir == dir && this.allowedMapping == allowedMapping
      ensures control == [] && !quit
      ensures dir.queues == old(dir.queues)[AccessControlQueue := []]
      ensures Valid()
    {
      this.dir := dir;
      this.allowedMapping := allowedMapping;
      control := [];
      quit := false;
      new;
      dir.Register(AccessControlQueue);
    }

    /** Take at most one control event; a stop latches `quit`. */
    method CheckControlQ()
      modifies this
      ensures (quit, control) == CheckControl(old(quit), old(control))
    {
      if control != [] {
        var request := control[0];
        control := control[1..];
        if request.operation == "stop" {
          quit := true;
        }
      }
    }

    /** Request a stop: one stop event is queued on the control channel and nothing else changes. */
    method Stop()
      modifies this
      ensures control == old(control) + [StopEvent]
      ensures quit == old(quit)
    {
      control := control + [StopEvent];
    }

    /** One pass of the polling loop: check the control channel, then drain the inbox.
        A stop seen by the check does not prevent the drain of the same pass; the loop
        exits only at its next test of `quit`. */
    method RunIteration()
      requires Valid()
      modifies this, dir
      ensures Valid()
      ensures (quit, control) == CheckControl(old(quit), old(control))
      ensures dir.queues == Drain(allowedMapping, old(dir.queues))
    {
      CheckControlQ();
      while true
        invariant Valid()
        invariant (quit, control) == CheckControl(old(quit), old(control))
        invariant Drain(allowedMapping, dir.queues) == Drain(allowedMapping, old(dir.queues))
        decreases |dir.queues[AccessControlQueue]|
      {
        ghost var before := dir.queues;
        var next := dir.GetNowait(AccessControlQueue);
        if next.Err? {
          break;  // the inbox is empty
        }
        DrainStep(allowedMapping, before);
        ghost var rest := dir.queues;
        var params := next.value.parameters;
        var sender := Get(params, "sender_id");
        if sender.Err? {
          break;  // logged
        }
        var route := Get(params, "route_id");
        if route.Err? {
          break;  // logged
        }
        assert Deliver(allowedMapping, rest, next.value) == Process(allowedMapping, rest, sender.value, route.value);
        var o := ProcessAccessRequest(sender.value, route.value);
        if o.Raised? {
          break;  // logged
        }
      }
    }

    /** Handle one request: drop it if invalid, else forward or reject it. */
    method ProcessAccessRequest(sender: Value, route: Value) returns (o: Outcome)
      modifies dir
      ensures o == OutcomeOf(Process(allowedMapping, old(dir.queues), sender, route))
      ensures dir.queues == After(Process(allowedMapping, old(dir.queues), sender, route), old(dir.queues))
    {
      if !Truthy(sender) || !Truthy(route) {
        return Done;  // logged and dropped
      }
      var permitted := CheckPermissions(allowedMapping, sender, route);
      if permitted.Err? {
        return Raised(permitted.error);
      }
      if permitted.value {
        o := ForwardToResourceManager(sender, route);
      } else {
        o := SendRejection(sender, route, "access_denied");
      }
    }

    /** Send a `mission_rejected` event with the given reason to the planner. */
    method SendRejection(sender: Value, route: Value, reason: string) returns (o: Outcome)
      modifies dir
      ensures var r := Send(old(dir.queues), PlannerQueue, RejectionEvent(AccessControlQueue, PlannerQueue, sender, route, reason));
        o == OutcomeOf(r) && dir.queues == After(r, old(dir.queues))
    {
      var plannerQ := dir.GetQueue(PlannerQueue);
      if plannerQ.Err? {
        return Raised(plannerQ.error);
      }
      dir.Put(plannerQ.value, RejectionEvent(AccessControlQueue, PlannerQueue, sender, route, reason));
      o := Done;
    }

    /** Send a `take_mission` event to the resource manager. */
    method ForwardToResourceManager(sender: Value, route: Value) returns (o: Outcome)
      modifies dir
      ensures var r := Send(old(dir.queues), ResourceManagerQueue, TakeMission(sender, route));
        o == OutcomeOf(r) && dir.queues == After(r, old(dir.queues))
    {
      var resourceQ := dir.GetQueue(ResourceManagerQueue);
      if resourceQ.Err? {
        return Raised(resourceQ.error);
      }
      dir.Put(resourceQ.value, TakeMission(sender, route));
      o := Done;
    }
  }
}
