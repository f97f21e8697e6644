/**
 * Fixed-window pulse counting. The edge callback only bumps a counter; a monitor
 * thread polls the clock and, at each window boundary, reads and resets the
 * counter, moves the boundary to the current time, and hands the logger one
 * sample (pulses, elapsed ns, now ns) when the window saw any pulse. Each poll of
 * the monitor loop is one call of `WindowMonitorStep` with the clock reading as a
 * parameter; the sleep between polls is not modelled.
 */
module Gpio {
  import opened Measurement
  import Logger

  /** Length of one counting window, in ns. */
  const WINDOW_SIZE_NS: int := 500_000_000

  /** The counter and boundary after one poll, and the sample handed on, if any. */
  datatype Window = Window(pulseCount: nat, lastWindowNs: int, emitted: Option<Sample>)

  /** Pulses carried by an optional sample (0 for none). */
  function Pulses(o: Option<Sample>): int
  {
    if o.Some? then o.value.index else 0
  }

  /**
   * One poll at time `nowNs`. Before the window has elapsed nothing happens. At a
   * boundary the counter restarts at 0 and the boundary moves to `nowNs`, idle or
   * not; a sample is produced only for a window that counted pulses, and the pulses
   * it carries are exactly those counted.
   */
  function WindowTick(pulseCount: nat, lastWindowNs: int, windowNs: int, nowNs: int): (w: Window)
    ensures nowNs - lastWindowNs < windowNs ==> w == Window(pulseCount, lastWindowNs, None)
    ensures nowNs - lastWindowNs >= windowNs ==>
              w.pulseCount == 0 && w.lastWindowNs == nowNs && (w.emitted.Some? <==> pulseCount > 0)
    ensures w.emitted.Some? ==>
              w.emitted.value == Sample(pulseCount, nowNs - lastWindowNs, nowNs)
              && w.emitted.value.index > 0 && w.emitted.value.deltaNs >= windowNs
    ensures pulseCount == w.pulseCount + Pulses(w.emitted)
  {
    if nowNs - lastWindowNs >= windowNs then
      var elapsedNs := nowNs - lastWindowNs;
      Window(0, nowNs, if pulseCount > 0 then Some(Sample(pulseCount, elapsedNs, nowNs)) else None)
    else
      Window(pulseCount, lastWindowNs, None)
  }

  /** What the two threads do, interleaved: an encoder edge, or one poll of the monitor. */
  datatype Event = Edge | Poll(nowNs: int)

  datatype WindowTrace = WindowTrace(pulseCount: nat, lastWindowNs: int, samples: seq<Sample>)

  function WindowRun(pulseCount: nat, lastWindowNs: int, windowNs: int, events: seq<Event>): WindowTrace
    decreases |events|
  {
    if events == [] then WindowTrace(pulseCount, lastWindowNs, [])
    else match events[0]
      case Edge => WindowRun(pulseCount + 1, lastWindowNs, windowNs, events[1..])
      case Poll(nowNs) =>
        var w := WindowTick(pulseCount, lastWindowNs, windowNs, nowNs);
        var rest := WindowRun(w.pulseCount, w.lastWindowNs, windowNs, events[1..]);
        WindowTrace(rest.pulseCount, rest.lastWindowNs, Emitted(w.emitted) + rest.samples)
  }

  function EdgeCount(events: seq<Event>): nat
  {
    if events == [] then 0 else (if events[0].Edge? then 1 else 0) + EdgeCount(events[1..])
  }

  function PulseSum(samples: seq<Sample>): int
  {
    if samples == [] then 0 else samples[0].index + PulseSum(samples[1..])
  }

  /** Every sample produced carries a positive pulse count and spans at least one window. */
  predicate WellFormedWindows(samples: seq<Sample>, windowNs: int)
  {
    forall i | 0 <= i < |samples| :: samples[i].index > 0 && samples[i].deltaNs >= windowNs
  }

  /** Conservation: every edge is either in a sample already produced or still in the counter. */
  lemma {:induction false} WindowRunConserves(pulseCount: nat, lastWindowNs: int, windowNs: int, events: seq<Event>)
    ensures var t := WindowRun(pulseCount, lastWindowNs, windowNs, events);
            pulseCount + EdgeCount(events) == PulseSum(t.samples) + t.pulseCount
    decreases |events|
  {
    if events != [] {
      match events[0]
      case Edge =>
        WindowRunConserves(pulseCount + 1, lastWindowNs, windowNs, events[1..]);
      case Poll(nowNs) =>
        var w := WindowTick(pulseCount, lastWindowNs, windowNs, nowNs);
        WindowRunConserves(w.pulseCount, w.lastWindowNs, windowNs, events[1..]);
        var rest := WindowRun(w.pulseCount, w.lastWindowNs, windowNs, events[1..]);
        if w.emitted.Some? {
          assert (Emitted(w.emitted) + rest.samples)[1..] == rest.samples;
        } else {
          assert Emitted(w.emitted) + rest.samples == rest.samples;
        }
    }
  }

  lemma {:induction false} WindowRunWellFormed(pulseCount: nat, lastWindowNs: int, windowNs: int, events: seq<Event>)
    ensures WellFormedWindows(WindowRun(pulseCount, lastWindowNs, windowNs, events).samples, windowNs)
    decreases |events|
  {
    if events != [] {
      match events[0]
      case Edge =>
        WindowRunWellFormed(pulseCount + 1, lastWindowNs, windowNs, events[1..]);
      case Poll(nowNs) =>
        var w := WindowTick(pulseCount, lastWindowNs, windowNs, nowNs);
        WindowRunWellFormed(w.pulseCount, w.lastWindowNs, windowNs, events[1..]);
        var rest := WindowRun(w.pulseCount, w.lastWindowNs, windowNs, events[1..]);
        var all := Emitted(w.emitted) + rest.samples;
        forall i | 0 <= i < |all| ensures all[i].index > 0 && all[i].deltaNs >= windowNs {
          if i < |Emitted(w.emitted)| {
            assert all[i] == w.emitted.value;
          } else {
            assert all[i] == rest.samples[i - |Emitted(w.emitted)|];
          }
        }
    }
  }

  predicate AllAtOrBefore(samples: seq<Sample>, t: int)
  {
    forall i | 0 <= i < |samples| :: samples[i].nowNs <= t
  }

  predicate AllAfter(samples: seq<Sample>, t: int)
  {
    forall i | 0 <= i < |samples| :: samples[i].nowNs > t
  }

  predicate StrictlyIncreasing(samples: seq<Sample>)
  {
    forall i, j | 0 <= i < j < |samples| :: samples[i].nowNs < samples[j].nowNs
  }

  /**
   * With a positive window, produced samples are strictly increasing in time even if
   * the clock steps back: each boundary is at least a window past the previous one.
   */
  lemma {:induction false} WindowRunOrdered(pulseCount: nat, lastWindowNs: int, windowNs: int, events: seq<Event>)
    requires windowNs > 0
    ensures var t := WindowRun(pulseCount, lastWindowNs, windowNs, events);
            StrictlyIncreasing(t.samples) && AllAfter(t.samples, lastWindowNs)
            && AllAtOrBefore(t.samples, t.lastWindowNs) && t.lastWindowNs >= lastWindowNs
    decreases |events|
  {
    if events != [] {
      match events[0]
      case Edge =>
        WindowRunOrdered(pulseCount + 1, lastWindowNs, windowNs, events[1..]);
      case Poll(nowNs) =>
        var w := WindowTick(pulseCount, lastWindowNs, windowNs, nowNs);
        WindowRunOrdered(w.pulseCount, w.lastWindowNs, windowNs, events[1..]);
        var rest := WindowRun(w.pulseCount, w.lastWindowNs, windowNs, events[1..]);
        var head := Emitted(w.emitted);
        var all := head + rest.samples;
        forall i | 0 <= i < |all| ensures all[i].nowNs > lastWindowNs {
          if i < |head| {
            assert all[i] == w.emitted.value;
          } else {
            assert all[i] == rest.samples[i - |head|];
          }
        }
        forall i | 0 <= i < |all| ensures all[i].nowNs <= rest.lastWindowNs {
          if i < |head| {
            assert all[i] == w.emitted.value;
          } else {
            assert all[i] == rest.samples[i - |head|];
          }
        }
        forall i, j | 0 <= i < j < |all| ensures all[i].nowNs < all[j].nowNs {
          if i < |head| {
            assert all[i] == w.emitted.value;
            assert all[j] == rest.samples[j - |head|];
          } else {
            assert all[i] == rest.samples[i - |head|];
            assert all[j] == rest.samples[j - |head|];
          }
        }
    }
  }

  /**
   * An idle window still moves the boundary: one pulse after an idle window is
   * reported over the second window only, not over both.
   */
  lemma IdleWindowMovesBoundary(t0: int)
    ensures WindowRun(0, t0, WINDOW_SIZE_NS, [Poll(t0 + WINDOW_SIZE_NS), Edge, Poll(t0 + 2 * WINDOW_SIZE_NS)]).samples
         == [Sample(1, WINDOW_SIZE_NS, t0 + 2 * WINDOW_SIZE_NS)]
  {
    var events := [Poll(t0 + WINDOW_SIZE_NS), Edge, Poll(t0 + 2 * WINDOW_SIZE_NS)];
    var e1 := [Edge, Poll(t0 + 2 * WINDOW_SIZE_NS)];
    var e2 := [Poll(t0 + 2 * WINDOW_SIZE_NS)];
    assert events[1..] == e1 && e1[1..] == e2 && e2[1..] == [];
    var w := WindowTick(1, t0 + WINDOW_SIZE_NS, WINDOW_SIZE_NS, t0 + 2 * WINDOW_SIZE_NS);
    assert w.emitted == Some(Sample(1, WINDOW_SIZE_NS, t0 + 2 * WINDOW_SIZE_NS));
    assert WindowRun(w.pulseCount, w.lastWindowNs, WINDOW_SIZE_NS, []).samples == [];
    var last := WindowRun(1, t0 + WINDOW_SIZE_NS, WINDOW_SIZE_NS, e2);
    assert last.samples == [Sample(1, WINDOW_SIZE_NS, t0 + 2 * WINDOW_SIZE_NS)];
    assert WindowRun(0, t0 + WINDOW_SIZE_NS, WINDOW_SIZE_NS, e1) == last;
  }

  class GpioHandler {
    const logger: Logger.Logger
    var pulseCountWindow: nat
    const windowNs: int
    var lastWindowNs: int

    /** Starts with an empty counter and the first window beginning at the clock reading `nowNs`. */
    constructor (logger: Logger.Logger, nowNs: int)
      ensures this.logger == logger
      ensures pulseCountWindow == 0 && windowNs == WINDOW_SIZE_NS && lastWindowNs == nowNs
    {
      this.logger := logger;
      pulseCountWindow := 0;
      windowNs := WINDOW_SIZE_NS;
      lastWindowNs := nowNs;
    }

    /** The edge callback: count one pulse and nothing else. */
    method EncoderCallback()
      modifies this`pulseCountWindow
      ensures pulseCountWindow == old(pulseCountWindow) + 1
    {
      pulseCountWindow := pulseCountWindow + 1;
    }

    /** One poll of the window monitor; a produced sample goes to the logger's enqueue. */
    method WindowMonitorStep(nowNs: int)
      requires logger.Valid()
      modifies this`pulseCountWindow, this`lastWindowNs, logger`queue
      ensures logger.Valid()
      ensures var w := WindowTick(old(pulseCountWindow), old(lastWindowNs), windowNs, nowNs);
              pulseCountWindow == w.pulseCount && lastWindowNs == w.lastWindowNs
              && logger.queue == old(logger.queue) + (if logger.recordingActive then Emitted(w.emitted) else [])
    {
      if nowNs - lastWindowNs >= windowNs {
        var elapsedNs := nowNs - lastWindowNs;
        var pulses := pulseCountWindow;
        pulseCountWindow := 0;
        lastWindowNs := nowNs;
        if pulses > 0 {
          logger.EnqueData(pulses, elapsedNs, nowNs);
        }
      }
    }
  }
}
