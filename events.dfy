/** Message shapes and the dynamic values they carry. */
module Events {

  /** A value as it travels in event parameters and in stored route data. */
  datatype Value =
    | NoneValue
    | Bool(b: bool)
    | Int(i: int)
    | Str(s: string)
    | Tuple(elems: seq<Value>)
    | List(items: seq<Value>)
    | Dict(entries: map<string, Value>)
    | MissionObject(mission: Mission)

  /** The mission handed to the control system and the safety block. */
  datatype Mission = Mission(home: Value, waypoints: Value, speedLimits: Value, armed: Value)

  /** A routed application message. */
  datatype Event = Event(source: string, destination: string, operation: string, parameters: Value)

  /** The exceptions the modelled code can raise. */
  datatype Error =
    | Empty                         // a non-blocking get on an empty queue
    | QueueNotFound(name: string)   // a directory lookup of an unbound name
    | AttributeError(name: string)  // `.get` on something that is not a dict
    | KeyError(key: string)         // `d[key]` with the key absent
    | TypeError                     // subscripting a non-dict, hashing a list or dict
    | ValueError                    // a route missing from the route storage

  datatype Result<T> = Ok(value: T) | Err(error: Error) {
    predicate IsFailure() { Err? }
    function PropagateFailure<U>(): Result<U> requires Err? { Err(error) }
    function Extract(): T requires Ok? { value }
  }

  /** Whether a call returned normally or raised. */
  datatype Outcome = Done | Raised(error: Error)

  function OutcomeOf<T>(r: Result<T>): Outcome {
    if r.Ok? then Done else Raised(r.error)
  }

  /** Python truthiness: `not v` holds exactly when `!Truthy(v)`. */
  predicate Truthy(v: Value) {
    match v
    case NoneValue => false
    case Bool(b) => b
    case Int(i) => i != 0
    case Str(s) => s != ""
    case Tuple(xs) => xs != []
    case List(xs) => xs != []
    case Dict(m) => m != map[]
    case MissionObject(_) => true
  }

  /** Whether `v` may be used as a dictionary key (lists and dicts may not). */
  predicate Hashable(v: Value) {
    match v
    case List(_) => false
    case Dict(_) => false
    case Tuple(xs) => forall i | 0 <= i < |xs| :: Hashable(xs[i])
    case _ => true
  }

  /** `params.get(key)`: None for a missing key, an AttributeError for a non-dict. */
  function Get(params: Value, key: string): Result<Value> {
    if !params.Dict? then Err(AttributeError("get"))
    else if key in params.entries then Ok(params.entries[key])
    else Ok(NoneValue)
  }

  /** `v[key]` with a string key: a KeyError for a missing key, a TypeError for a non-dict. */
  function Subscript(v: Value, key: string): Result<Value> {
    if !v.Dict? then Err(TypeError)
    else if key in v.entries then Ok(v.entries[key])
    else Err(KeyError(key))
  }

  /** The `mission_rejected` event both actors send to the planner: it carries exactly the
      sender, the route and the reason, and the receiver reads each back by subscript. */
  function RejectionEvent(source: string, destination: string, sender: Value, route: Value, reason: string): (e: Event)
    ensures e.source == source && e.destination == destination && e.operation == "mission_rejected"
    ensures e.parameters.Dict? && e.parameters.entries.Keys == {"sender_id", "route_id", "reason"}
    ensures Subscript(e.parameters, "sender_id") == Ok(sender) && Subscript(e.parameters, "route_id") == Ok(route)
    ensures Subscript(e.parameters, "reason") == Ok(Str(reason))
  {
    Event(source, destination, "mission_rejected",
          Dict(map["sender_id" := sender, "route_id" := route, "reason" := Str(reason)]))
  }
}
