# Mission-dispatch actors, modelled in Dafny

This project models the per-message logic of the two actors of a small mission-dispatch
pipeline. Actors exchange events through named FIFO queues that a shared directory holds.

- The **access-control block** takes `{sender_id, route_id}` requests from its inbox.
  - An invalid request is dropped silently.
  - A permitted request becomes one `take_mission` event for the resource manager.
  - A denied request becomes one `mission_rejected` event (reason `access_denied`) for the planner.
- The **resource manager** takes at most one event per pass from its inbox. It looks the
  route up, wraps `{sender_id, route}` and hands that to its mission dispatch. The concrete
  dispatch builds a `Mission` and sends `set_mission` to the control system and to the safety block.

Both actors share one runtime discipline. Each has a private control channel that only
`stop()` writes to, and a `quit` latch. A loop pass first checks the control channel, then
processes its inbox. An exception raised while handling a message is logged and swallowed;
it never ends the loop.

The model takes the following form:

- The directory is a class over `map<string, seq<Event>>`. An actor's inbox *is* the
  directory entry bound under its name, so events queued by others are the events it reads.
- Each actor is a class with `control` and `quit` fields. One pass of its polling loop is
  one method, `RunIteration`.
- Each method is proved equal to a pure specification function of the old state:
  - `CheckControl` for the control check;
  - `Drain` for the access-control inbox loop;
  - `TakeOne` for the resource manager's single-event pass;
  - `Process`, `Dispatch`, `BaseDispatch` and `Send` for the handlers.
- Lemmas about those functions state what the code promises.

Python's dynamic values are a `Value` datatype. Python truthiness (`not x`) and
hashability (a list or dict cannot be a dictionary key) are modelled. Exceptions are
explicit `Result`/`Outcome` values. Every failure in this code happens before the first
`put`, so a failed handler leaves every queue unchanged.

The model does not assume that the planner or the resource manager is registered. A
destination that is not registered makes the handler raise when it looks that destination
up. The access-control drain is therefore stated relative to the names the directory
binds. With no planner registered, for example, a permitted request is forwarded without
error, while a denied request raises, is consumed, and ends the pass
(`DeniedRequestWithoutPlanner`).

Behaviour of the code as written that the model states explicitly:

- The resource manager's loop (src/resource_manager.py:59-64) passes
  `{"sender_id": …, "route": …}` to the concrete `_dispatch_mission`. That method reads
  `route_data["home"]` (tests/resource_manager.py:24), which always raises a `KeyError`,
  and the loop swallows it. Through the loop, the resource manager therefore consumes
  events and never sends a `set_mission` (`InheritedLoopEmitsNothing`). A permitted request
  goes no further than the resource manager's inbox (`PermittedRequestStopsAtResourceManager`).
- Nothing in the loop calls the resource manager's `_send_rejection`. A missing route is
  only logged. No `route_not_found`, `invalid_request_format` or `internal_server_error`
  rejection is ever produced, and the model produces none either.
- `stop()` queues one control event, and each pass consumes one. Several stop requests
  therefore have the same effect as one, but a stop queued behind other control events is
  seen only once those have been consumed (`RepeatedStopSameEffect`).

Assumptions about code that is not part of this model:

- The queue directory (`src/queues_dir.py`) is not part of this model.
  - `register` binds a name, and a later registration of the same name replaces the earlier one.
  - `get_queue` on an unbound name raises, which here is a `QueueNotFound` error.
- The configuration constants are not part of this model. The queue names are distinct
  placeholder strings.
- The configured resource-manager queue name is read as the resource manager's own inbox
  name, `"resource_manager_base_queue"` (src/resource_manager.py:13). This is the natural
  reading of the system's test of a permitted request (tests/test.py:12-38). In the model,
  `RoutePolicy.EventSourceName` is defined as `Config.ResourceManagerQueue`, so this
  assumption is one line of code.
- The `Mission` type is not part of this model. It is a four-field record here.

## Model

| member | source | states |
|---|---|---|
| `Control.CheckControl` | src/access_control_block.py:36-42 | at most one control event is consumed; an empty control queue changes nothing; `quit` becomes true exactly when it already was or the consumed event is a stop; `quit` is never reset |
| `Control.ControlAfter` | src/access_control_block.py:54-57 | after n passes of the loop, exactly the first n control events (or all, if fewer) have been consumed in order, and `quit` is set exactly when it already was or one of them is a stop |
| `Control.QuitNeverReset` | src/access_control_block.py:40 | once `quit` is latched, it stays true through any number of further control checks |
| `Control.RepeatedStopSameEffect` | src/access_control_block.py:49-54 | k ≥ 1 stop requests behind any pending control events give the same `quit` value, pass by pass, as one stop request; `quit` is true once the pending events are consumed |
| `Events.RejectionEvent` | tests/access_control_block.py:29-38 | a `mission_rejected` event from the given source to the given destination, whose parameters hold exactly `sender_id`, `route_id` and `reason`, each of which reads back as given |
| `QueuesDir.Send` | tests/access_control_block.py:44-53 | look a queue up and put an event: fails with QueueNotFound and changes nothing when the name is unbound; otherwise that queue alone grows by the event at its tail |
| `QueuesDir.QueuesDirectory.constructor` | tests/test.py:17 | a new directory binds no names |
| `QueuesDir.QueuesDirectory.Register` | src/access_control_block.py:29 | binds a fresh empty queue under the name, replacing any earlier binding; other bindings are unchanged |
| `QueuesDir.QueuesDirectory.GetQueue` | tests/access_control_block.py:28 | succeeds exactly when the name is bound, returning that queue; otherwise reports QueueNotFound |
| `QueuesDir.QueuesDirectory.Put` | tests/access_control_block.py:29-38 | appends the event to the tail of the bound queue, leaving every other queue as it was |
| `QueuesDir.QueuesDirectory.GetNowait` | src/access_control_block.py:59 | takes the head of the queue in FIFO order, or reports Empty and changes nothing |
| `AccessPolicy.CheckPermissions` | tests/access_control_block.py:40-41 | permitted iff `route_id` is in the sender's allowed list; an unknown sender is permitted nothing; an unhashable sender raises TypeError |
| `AccessPolicy.TakeMission` | tests/access_control_block.py:45-53 | a `take_mission` event from the access-control queue to the resource manager's queue, whose parameters hold exactly `sender_id` and `route_id`; the resource manager's subscripts read both back |
| `AccessPolicy.AccessDenied` | tests/access_control_block.py:25 | a `mission_rejected` event from the access-control queue to the planner's queue with reason `access_denied`, carrying the sender and the route |
| `AccessPolicy.WellFormed` | tests/access_control_block.py:17 | a request with a missing identifier (None), an empty string or zero is never valid |
| `AccessPolicy.Process` | tests/access_control_block.py:14-25 | an empty or missing identifier is dropped with no event anywhere. A valid request with an unhashable sender raises TypeError before any send. A permitted request appends exactly one `take_mission` from the access-control queue to the resource manager's queue, and the planner's queue is untouched. A denied request appends exactly one `mission_rejected` with reason `access_denied` to the planner's queue, and the resource manager's queue is untouched. Every other queue is unchanged. If the destination the decision picks is unbound, the request raises that queue's own QueueNotFound: the resource manager's when permitted, the planner's when denied |
| `AccessPolicy.ExactlyOneOutbound` | tests/access_control_block.py:21-25 | a handled valid request grows the two destination queues by exactly one event in total, and one of them is unchanged: never both kinds |
| `AccessControl.Deliver` | src/access_control_block.py:60-64 | handing one inbox event to the handler can raise only a missing `.get` (AttributeError), an unhashable sender (TypeError) or an unbound resource-manager or planner queue (QueueNotFound) |
| `AccessControl.DeliverReads` | src/access_control_block.py:60-64 | parameters that are not a dict raise on `.get`; a missing `sender_id` or `route_id` reads as None, so the request is dropped and nothing changes; otherwise the handler receives the two stored identifiers |
| `AccessControl.DeliverFrame` | src/access_control_block.py:60-64 | handling one inbox event binds the same names and changes no queue except the resource manager's and the planner's |
| `AccessControl.Drain` | src/access_control_block.py:56-68 | one pass's inbox drain: inbox events are consumed from the head in order, so what remains is a suffix of the inbox; only the inbox, the resource manager's queue and the planner's queue can change |
| `AccessControl.CleanCount` | src/access_control_block.py:58-64 | the number of events at the head of the inbox whose handling raises nothing in the current directory: all of those are clean, and the next event, if any, is not |
| `AccessControl.DeliverOutcome` | src/access_control_block.py:59-64 | an event is handled without error exactly when its parameters are a dict and, for a valid request, the sender is hashable and the destination the decision picks is bound. Its outputs are then appended to that destination, and nothing else changes; any other event raises |
| `AccessControl.DrainStep` | src/access_control_block.py:58-68 | the head event is consumed before it is handled; a raise ends the drain, otherwise the drain continues from the directory the handler left |
| `AccessControl.DrainClosedForm` | src/access_control_block.py:54-68 | the drain in closed form, for any set of registered destinations: the handler ran once per event on exactly the clean prefix of the inbox, in FIFO order. Their `take_mission` and `mission_rejected` events were appended in that order to the destinations they picked. The first failing event is consumed too, and every later event stays queued in order |
| `AccessControl.DrainAllClean` | src/access_control_block.py:58-66 | with no handler errors in the current directory, one pass empties the inbox and appends every event's output in inbox order |
| `AccessControl.DrainStopsAtFailure` | src/access_control_block.py:58-68 | when the event at position j raises, for whatever reason including an unbound destination, the events before it were handled, it is consumed, and the events after it remain queued in order for the next pass |
| `AccessControl.AccessControlBlock.constructor` | src/access_control_block.py:18-29 | binds a fresh empty inbox under the access-control queue name, starts with an empty control channel and `quit` false, and keeps the permission table |
| `AccessControl.AccessControlBlock.CheckControlQ` | src/access_control_block.py:36-42 | the control channel and `quit` become exactly `CheckControl` of their old values; the directory is untouched |
| `AccessControl.AccessControlBlock.Stop` | src/access_control_block.py:49-50 | appends exactly one stop event to the control channel; `quit`, the inbox and the directory are untouched |
| `AccessControl.AccessControlBlock.RunIteration` | src/access_control_block.py:54-68 | one loop pass: the control check, then the whole `Drain` of the inbox. A stop seen in this pass does not prevent this pass's drain; the inbox stays bound |
| `AccessControl.AccessControlBlock.ProcessAccessRequest` | tests/access_control_block.py:14-25 | the directory becomes exactly what `Process` says, and the call raises exactly when `Process` fails, leaving the directory unchanged |
| `AccessControl.AccessControlBlock.SendRejection` | tests/access_control_block.py:27-38 | appends one `mission_rejected` `{sender_id, route_id, reason}` from the access-control queue to the planner's queue, or raises QueueNotFound and changes nothing |
| `AccessControl.AccessControlBlock.ForwardToResourceManager` | tests/access_control_block.py:43-53 | appends one `take_mission` `{sender_id, route_id}` to the resource manager's queue, or raises QueueNotFound and changes nothing |
| `RoutePolicy.GetRouteData` | tests/resource_manager.py:15-18 | returns the stored route data exactly when the route is present; an absent route raises ValueError, an unhashable identifier TypeError |
| `RoutePolicy.MissionOf` | tests/resource_manager.py:24 | succeeds exactly when the route data is a dict holding `home`, `waypoints`, `speed_limits` and `armed`, and the mission's four fields are those values; a dict without `home` raises KeyError on `home` |
| `RoutePolicy.SetMission` | tests/resource_manager.py:26-38 | a `set_mission` event sent under the resource manager's own name to the given destination, carrying its parameters unchanged |
| `RoutePolicy.Dispatch` | tests/resource_manager.py:20-38 | succeeds exactly when both destinations are bound and the mission can be built. It then appends one `set_mission` from the resource manager to the control system's queue and one to the safety block's queue, both carrying the same mission. Every other queue is unchanged; on failure nothing is sent |
| `RoutePolicy.BaseDispatch` | src/resource_manager.py:71-87 | succeeds exactly when both destinations are bound. It then appends one `set_mission` to the control system's queue and one to the safety block's queue, both with the same parameters. Every other queue is unchanged |
| `RoutePolicy.RouteRejection` | tests/resource_manager.py:42-51 | a `mission_rejected` event sent under the resource manager's own name to the planner's queue, carrying the sender, the route and the given reason |
| `ResourceManagement.MissionData` | src/resource_manager.py:59-62 | the payload handed to the dispatch holds exactly `sender_id` and `route`, each of which reads back as given, and none of the four mission keys |
| `ResourceManagement.TakeOne` | src/resource_manager.py:54-69 | one pass consumes at most one inbox event; an empty inbox leaves the directory unchanged; nothing but the inbox and the two dispatch destinations can change; any error consumes the event and does not end the loop |
| `ResourceManagement.MissionDataHasNoMission` | src/resource_manager.py:59-64 | the `{sender_id, route}` payload the loop builds makes the concrete mission construction raise KeyError on `home` |
| `ResourceManagement.InheritedLoopEmitsNothing` | src/resource_manager.py:56-69 | through the loop, a pass only removes the head of the inbox: no `set_mission` or any other event is sent, whatever the event and the route storage |
| `ResourceManagement.ResourceManager.constructor` | src/resource_manager.py:16-27 | binds a fresh empty inbox under `resource_manager_base_queue`, starts with an empty control channel and `quit` false, and keeps the route storage |
| `ResourceManagement.ResourceManager.CheckControlQ` | src/resource_manager.py:34-40 | the control channel and `quit` become exactly `CheckControl` of their old values; the directory is untouched |
| `ResourceManagement.ResourceManager.Stop` | src/resource_manager.py:47-48 | appends exactly one stop event to the control channel; `quit` and the directory are untouched |
| `ResourceManagement.ResourceManager.RunIteration` | src/resource_manager.py:52-69 | one loop pass: the control check, then `TakeOne` of the directory; the inbox stays bound |
| `ResourceManagement.ResourceManager.DispatchMission` | tests/resource_manager.py:20-38 | the directory becomes exactly what `Dispatch` says, and the call raises exactly when `Dispatch` fails, leaving the directory unchanged |
| `ResourceManagement.ResourceManager.BaseDispatchMission` | src/resource_manager.py:71-87 | the directory becomes exactly what `BaseDispatch` says, and the call raises exactly when a destination is unbound |
| `ResourceManagement.ResourceManager.SendRejection` | tests/resource_manager.py:40-51 | appends one `mission_rejected` `{sender_id, route_id, reason}` from the resource manager to the planner's queue, or raises QueueNotFound and changes nothing |
| `Pipeline.PermittedRequestForwarded` | tests/access_control_block.py:21-23 | an access-control pass over one permitted request empties the inbox and puts exactly one `take_mission` on the resource manager's queue, with nothing to the planner, whether or not the planner is registered |
| `Pipeline.ForwardedRequestConsumed` | src/resource_manager.py:56-69 | the resource manager's next pass consumes that `take_mission` and sends nothing |
| `Pipeline.PermittedRequestStopsAtResourceManager` | src/resource_manager.py:59-64 | composed, the two actors take a permitted request out of both inboxes, and no queue other than the two inboxes ever changes |
| `Pipeline.DeniedRequestWithoutPlanner` | tests/access_control_block.py:24-28 | with no planner registered, a denied request at the head of the inbox raises on the planner lookup: it is consumed, nothing is sent, and the rest of the inbox waits for the next pass |
| `Pipeline.AccessControlAllowedScenario` | tests/test.py:12-39 | the event found on the resource manager's queue comes from the access-control queue, is addressed to the resource manager, is a `take_mission`, and carries exactly `{sender_id: alice, route_id: route_1}` |
| `Pipeline.AccessControlDeniedScenario` | tests/test.py:42-60 | a denied request leaves the resource manager's queue empty |
| `Pipeline.AccessControlBadParamsScenario` | tests/test.py:63-78 | an empty sender and a missing route leave the resource manager's queue empty, with no planner registered |
| `Pipeline.ResourceManagerDispatchScenario` | tests/test.py:81-112 | dispatching the stored route data puts a `set_mission` on the control system's and on the safety block's queue, both carrying the same mission built from that data |
| `Pipeline.ResourceManagerRejectionScenario` | tests/test.py:115-136 | the planner receives a `mission_rejected` with exactly `{sender_id: alice, route_id: route_9, reason: not_found}` |
| `Pipeline.StopScenario` | src/access_control_block.py:49-57 | two stop requests followed by one loop pass leave `quit` set |

## Left out

- Processes and concurrency: `multiprocessing.Process`, cross-process queue semantics and
  interleavings are not modelled. One loop pass is one atomic step.
- The outer `while not self._quit` loop is not a method, because it need not terminate.
  It is the repetition of `RunIteration` until `quit` is true. Its exit behaviour is stated
  on the passes: `CheckControl`, `ControlAfter`, `QuitNeverReset` and `RepeatedStopSameEffect`.
- `sleep` and the 0.1 s recalculation interval are left out. They concern timing only.
- Logging (`_log_message`, the `print` calls, the debug message) is left out. It is
  console output only.
- The internals of the queue directory, `Mission`, the configuration constants, the
  planner, the safety block and the control system are not part of this model. They are
  abstracted as a map, a record and distinct name constants.
- Python equality across types (`True == 1`) and floating-point values are not modelled.
  Values compare structurally.
- A `Mission` object is treated as hashable and truthy, the defaults for a plain class.
- Object identity of queues is not modelled. `Register` binds a fresh empty queue, and the
  actor reads its inbox through the directory. A later re-binding of the same name by
  someone else would, in Python, orphan the actor's private queue. The model does not
  capture that aliasing.
- A resource manager that validates requests and sends `invalid_request_format`,
  `route_not_found` or `internal_server_error` rejections is not modelled, because no code
  shown implements one.
- AccessPolicy.ExactlyOneOutbound: counts events on the two destination queues, so it
  assumes both are registered. With one of them unregistered, `Process` states the outcome
  instead.
