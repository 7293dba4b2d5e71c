/** The shared directory from queue names to FIFO queues of events. */
module QueuesDir {
  import opened Events

  type Queues = map<string, seq<Event>>

  /** Look `name` up and append `e` to its queue: an error, changing nothing, when
      `name` is unbound; otherwise exactly that queue grows by `e` at its tail. */
  function Send(qs: Queues, name: string, e: Event): (r: Result<Queues>)
    ensures r.Ok? <==> name in qs
    ensures r.Err? ==> r.error == QueueNotFound(name)
    ensures r.Ok? ==> r.value.Keys == qs.Keys && r.value[name] == qs[name] + [e]
    ensures r.Ok? ==> forall n :: n in qs && n != name ==> r.value[n] == qs[n]
  {
    if name in qs then Ok(qs[name := qs[name] + [e]]) else Err(QueueNotFound(name))
  }

  /** The directory after a step that either succeeded with `r` or raised before changing anything. */
  function After(r: Result<Queues>, qs: Queues): Queues {
    if r.Ok? then r.value else qs
  }

  class QueuesDirectory {
    var queues: Queues

    constructor ()
      ensures queues == map[]
    {
      queues := map[];
    }

    /** Bind a fresh, empty queue under `name` (a later binding replaces an earlier one). */
    method Register(name: string)
      modifies this
      ensures queues == old(queues)[name := []]
    {
      queues := queues[name := []];
    }

    /** The queue bound to `name`, given by its name, or a lookup error. */
    method GetQueue(name: string) returns (r: Result<string>)
      ensures r.Ok? <==> name in queues
      ensures r.Ok? ==> r.value == name
      ensures r.Err? ==> r.error == QueueNotFound(name)
    {
      if name in queues {
        r := Ok(name);
      } else {
        r := Err(QueueNotFound(name));
      }
    }

    /** Append `e` to a queue obtained from GetQueue. */
    method Put(name: string, e: Event)
      requires name in queues
      modifies this
      ensures queues == Send(old(queues), name, e).value
    {
      queues := queues[name := queues[name] + [e]];
    }

    /** Take the head of a queue without blocking; Empty when there is none. */
    method GetNowait(name: string) returns (r: Result<Event>)
      requires name in queues
      modifies this
      ensures old(queues[name]) == [] ==> r == Err(Empty) && queues == old(queues)
      ensures old(queues[name]) != [] ==>
        r == Ok(old(queues[name][0])) && queues == old(queues)[name := old(queues[name][1..])]
    {
      if queues[name] == [] {
        r := Err(Empty);
      } else {
        r := Ok(queues[name][0]);
        queues := queues[name := queues[name][1..]];
      }
    }
  }
}
