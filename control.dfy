/** The private control channel of an actor and the quit latch it drives. */
module Control {

  datatype ControlEvent = ControlEvent(operation: string)

  const StopEvent: ControlEvent := ControlEvent("stop")

  /** `n` stop requests in a row. */
  function Stops(n: nat): seq<ControlEvent> {
    seq(n, _ => StopEvent)
  }

  /** One control check: consume at most one control event; a stop latches the quit flag.
      The result is the new quit flag and the new control queue. */
  function CheckControl(quit: bool, control: seq<ControlEvent>): (r: (bool, seq<ControlEvent>))
    ensures control == [] ==> r == (quit, control)
    ensures control != [] ==> r.1 == control[1..]
    ensures quit ==> r.0
    ensures r.0 <==> quit || (control != [] && control[0] == StopEvent)
  {
    if control == [] then (quit, control)
    else (quit || control[0].operation == "stop", control[1..])
  }

  /** The quit flag and control queue after `n` control checks, one per loop iteration:
      the first `n` control events (or all of them, if fewer) are consumed in order, and
      the flag is set exactly when it was already set or one of them is a stop. */
  function ControlAfter(quit: bool, control: seq<ControlEvent>, n: nat): (r: (bool, seq<ControlEvent>))
    ensures var m := if n < |control| then n else |control|;
      && r.1 == control[m..]
      && (r.0 <==> quit || StopEvent in control[..m])
    decreases n
  {
    if n == 0 then (quit, control)
    else
      var next := CheckControl(quit, control);
      var m := if n < |control| then n else |control|;
      assert control != [] ==> control[..m] == [control[0]] + next.1[..m - 1];
      ControlAfter(next.0, next.1, n - 1)
  }

  /** Once latched, the quit flag is never reset. */
  lemma {:induction false} QuitNeverReset(quit: bool, control: seq<ControlEvent>, n: nat)
    requires quit
    ensures ControlAfter(quit, control, n).0
    decreases n
  {
    if n > 0 {
      var next := CheckControl(quit, control);
      QuitNeverReset(next.0, next.1, n - 1);
    }
  }

  /** A stop request behind `pending` control events is observed by the iteration after
      `pending` has been consumed, and any number of stop requests (at least one) has the
      same effect on the quit flag, iteration by iteration, as a single one. */
  lemma {:induction false} RepeatedStopSameEffect(quit: bool, pending: seq<ControlEvent>, k: nat, n: nat)
    requires k >= 1
    ensures ControlAfter(quit, pending + Stops(k), n).0 == ControlAfter(quit, pending + [StopEvent], n).0
    ensures n > |pending| ==> ControlAfter(quit, pending + Stops(k), n).0
    decreases n
  {
    if n > 0 {
      var many, one := pending + Stops(k), pending + [StopEvent];
      if pending == [] {
        assert many[0] == StopEvent;
        QuitNeverReset(true, many[1..], n - 1);
        QuitNeverReset(true, one[1..], n - 1);
      } else {
        assert many[0] == one[0] == pending[0];
        assert many[1..] == pending[1..] + Stops(k);
        assert one[1..] == pending[1..] + [StopEvent];
        RepeatedStopSameEffect(CheckControl(quit, many).0, pending[1..], k, n - 1);
      }
    }
  }
}
