// The subscriber's event stream and the in-process gauge an adapter derives from it.

module Metrics {
  import opened Prelude
  import opened Rows

  datatype Kind = Acked | NackedRetried | NackedTerminal | LeaseLost | DispatchAbandoned

  /** `row` is the claimed copy an event is about; `timed` is whether the event carries a duration. */
  datatype Event =
    | Fetched(count: nat)
    | Dispatched(row: Row)
    | Outcome(kind: Kind, row: Row, timed: bool)
    | DlqWritten(row: Row)
    | DrainTimedOut

  /** Total weight of the rows dispatched. With weight one it counts dispatches; with the indicator of one
      claim it counts that claim's. */
  ghost function Opened(es: seq<Event>, g: Row -> nat): nat { Sum(es, OpenWeight(g)) }

  /** Total weight of the rows whose closing event, one that carries a duration, was emitted. */
  ghost function Closed(es: seq<Event>, g: Row -> nat): nat { Sum(es, CloseWeight(g)) }

  function OpenWeight(g: Row -> nat): Event -> nat { (e: Event) => if e.Dispatched? then g(e.row) else 0 }

  function CloseWeight(g: Row -> nat): Event -> nat { (e: Event) => if e.Outcome? && e.timed then g(e.row) else 0 }

  function Unit(): Row -> nat { (r: Row) => 1 }

  lemma EmitMany(es: seq<Event>, more: seq<Event>, g: Row -> nat)
    ensures Opened(es + more, g) == Opened(es, g) + Opened(more, g)
    ensures Closed(es + more, g) == Closed(es, g) + Closed(more, g)
  {
    SumAppend(es, more, OpenWeight(g));
    SumAppend(es, more, CloseWeight(g));
  }

  lemma EmitOne(e: Event, g: Row -> nat)
    ensures Opened([e], g) == OpenWeight(g)(e) && Closed([e], g) == CloseWeight(g)(e)
  {
    SumOne(e, OpenWeight(g));
    SumOne(e, CloseWeight(g));
  }

  /** What one event does to the in-process gauge. */
  function Change(e: Event): int {
    if e.Dispatched? then 1 else if e.Outcome? && e.timed then -1 else 0
  }

  function Gauge(es: seq<Event>): int {
    if es == [] then 0 else Change(es[0]) + Gauge(es[1..])
  }

  lemma {:induction false} GaugeIsDifference(es: seq<Event>)
    ensures Gauge(es) == Opened(es, Unit()) - Closed(es, Unit())
  {
    if es != [] { GaugeIsDifference(es[1..]); }
  }

  lemma {:induction false} GaugeAppend(es: seq<Event>, e: Event)
    ensures Gauge(es + [e]) == Gauge(es) + Change(e)
  {
    if es == [] {
      assert [e][1..] == [];
    } else {
      GaugeAppend(es[1..], e);
      assert (es + [e])[1..] == es[1..] + [e];
    }
  }

  /** The recorder: counters and one gauge, changed event by event. */
  class PrometheusRecorder {
    var inProcess: int
    var received: nat
    var acked: nat
    var nacked: nat
    var errors: nat

    constructor ()
      ensures inProcess == 0 && received == acked == nacked == errors == 0
    {
      inProcess, received, acked, nacked, errors := 0, 0, 0, 0, 0;
    }

    method Record(e: Event)
      modifies this
      ensures inProcess == old(inProcess) + Change(e)
      ensures received == old(received) + if e.Dispatched? then 1 else 0
      ensures acked == old(acked) + if e.Outcome? && e.kind.Acked? then 1 else 0
      ensures nacked == old(nacked) + if e.Outcome? && (e.kind.NackedRetried? || e.kind.NackedTerminal?) then 1 else 0
      ensures errors == old(errors) + if e.Outcome? && e.kind.LeaseLost? then 1 else 0
    {
      if e.Dispatched? {
        received := received + 1;
        inProcess := inProcess + 1;
        return;
      }
      if e.Outcome? {
        match e.kind {
          case Acked =>
            acked := acked + 1;
            if e.timed { inProcess := inProcess - 1; }
          case NackedRetried =>
            nacked := nacked + 1;
            if e.timed { inProcess := inProcess - 1; }
          case NackedTerminal =>
            nacked := nacked + 1;
            if e.timed { inProcess := inProcess - 1; }
          case LeaseLost =>
            errors := errors + 1;
            if e.timed { inProcess := inProcess - 1; }
          case DispatchAbandoned =>
            if e.timed { inProcess := inProcess - 1; }
        }
      }
    }

    /** Fed a whole stream, the gauge is the number of dispatches less the number of closing events. */
    method RecordAll(es: seq<Event>)
      modifies this
      ensures inProcess == old(inProcess) + Opened(es, Unit()) - Closed(es, Unit())
    {
      for k := 0 to |es|
        invariant inProcess == old(inProcess) + Gauge(es[..k])
      {
        Record(es[k]);
        assert es[..k + 1] == es[..k] + [es[k]];
        GaugeAppend(es[..k], es[k]);
      }
      assert es[..|es|] == es;
      GaugeIsDifference(es);
    }
  }
}
