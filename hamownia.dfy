/**
 * The stand-alone dynamometer script: a per-pulse debounced capture callback, a
 * writer loop that turns queued samples into rpm/torque/power series while
 * recording is on, and the start/stop button. The script keeps all of this in
 * module-level globals; here they are the fields of one `Script` object, and the
 * two locals that the writer loop carries from one iteration to the next
 * (`prev_omega`, `prev_time_s`) are fields too.
 */
module Hamownia {
  import opened Measurement

  /** Debounce floor: edges closer than this (about 10000 rpm) are treated as bounce. */
  const MIN_DELTA_NS: int := 6_000_000

  /** The capture state after one edge, and the sample it queued, if any. */
  datatype Capture = Capture(lastTimeNs: Option<int>, pulseCount: int, emitted: Option<Sample>)

  /**
   * One edge at time `nowNs`. The first edge only sets the baseline; later edges
   * are accepted when at least MIN_DELTA_NS after the previous edge. The baseline
   * moves to `nowNs` whether the edge is accepted or rejected.
   */
  function Debounce(lastTimeNs: Option<int>, pulseCount: int, nowNs: int): (c: Capture)
    ensures c.lastTimeNs == Some(nowNs)
    ensures c.emitted.Some? <==> lastTimeNs.Some? && nowNs - lastTimeNs.value >= MIN_DELTA_NS
    ensures c.emitted.None? ==> c.pulseCount == pulseCount
    ensures c.emitted.Some? ==>
              c.pulseCount == pulseCount + 1
              && c.emitted.value == Sample(c.pulseCount, nowNs - lastTimeNs.value, nowNs)
              && c.emitted.value.deltaNs >= MIN_DELTA_NS > 0
  {
    if lastTimeNs.Some? && nowNs - lastTimeNs.value >= MIN_DELTA_NS then
      Capture(Some(nowNs), pulseCount + 1, Some(Sample(pulseCount + 1, nowNs - lastTimeNs.value, nowNs)))
    else
      Capture(Some(nowNs), pulseCount, None)
  }

  /** Every interval is at least the debounce floor. */
  predicate Debounced(samples: seq<Sample>)
  {
    forall i | 0 <= i < |samples| :: samples[i].deltaNs >= MIN_DELTA_NS
  }

  predicate AllAtOrAfter(samples: seq<Sample>, t: int)
  {
    forall i | 0 <= i < |samples| :: samples[i].nowNs >= t
  }

  /** The capture state after a run of edges, and everything the run queued, in order. */
  datatype Trace = Trace(lastTimeNs: Option<int>, pulseCount: int, samples: seq<Sample>)

  function CaptureRun(lastTimeNs: Option<int>, pulseCount: int, nows: seq<int>): Trace
    decreases |nows|
  {
    if nows == [] then Trace(lastTimeNs, pulseCount, [])
    else
      var c := Debounce(lastTimeNs, pulseCount, nows[0]);
      var rest := CaptureRun(c.lastTimeNs, c.pulseCount, nows[1..]);
      Trace(rest.lastTimeNs, rest.pulseCount, Emitted(c.emitted) + rest.samples)
  }

  /** After a run the baseline is the last edge's time; an empty run changes nothing. */
  lemma {:induction false} CaptureRunBaseline(lastTimeNs: Option<int>, pulseCount: int, nows: seq<int>)
    ensures nows == [] ==> CaptureRun(lastTimeNs, pulseCount, nows) == Trace(lastTimeNs, pulseCount, [])
    ensures nows != [] ==> CaptureRun(lastTimeNs, pulseCount, nows).lastTimeNs == Some(nows[|nows| - 1])
    decreases |nows|
  {
    if |nows| > 1 {
      var c := Debounce(lastTimeNs, pulseCount, nows[0]);
      CaptureRunBaseline(c.lastTimeNs, c.pulseCount, nows[1..]);
    }
  }

  /**
   * Accepted edges are numbered consecutively from the counter's value: the queue
   * receives indices count+1, count+2, ... and the counter ends at the last index.
   */
  lemma {:induction false} CaptureRunIndices(lastTimeNs: Option<int>, pulseCount: int, nows: seq<int>)
    ensures var t := CaptureRun(lastTimeNs, pulseCount, nows);
            t.pulseCount == pulseCount + |t.samples|
            && forall i | 0 <= i < |t.samples| :: t.samples[i].index == pulseCount + i + 1
    decreases |nows|
  {
    if nows != [] {
      var c := Debounce(lastTimeNs, pulseCount, nows[0]);
      CaptureRunIndices(c.lastTimeNs, c.pulseCount, nows[1..]);
    }
  }

  /** Every queued interval is at least the debounce floor, so the rpm division never divides by zero. */
  lemma {:induction false} CaptureRunIntervals(lastTimeNs: Option<int>, pulseCount: int, nows: seq<int>)
    ensures Debounced(CaptureRun(lastTimeNs, pulseCount, nows).samples)
    ensures NonZeroIntervals(CaptureRun(lastTimeNs, pulseCount, nows).samples)
    decreases |nows|
  {
    if nows != [] {
      var c := Debounce(lastTimeNs, pulseCount, nows[0]);
      CaptureRunIntervals(c.lastTimeNs, c.pulseCount, nows[1..]);
      var rest := CaptureRun(c.lastTimeNs, c.pulseCount, nows[1..]);
      var t := CaptureRun(lastTimeNs, pulseCount, nows);
      var head := Emitted(c.emitted);
      assert t.samples == head + rest.samples;
      forall i | 0 <= i < |t.samples| ensures t.samples[i].deltaNs >= MIN_DELTA_NS {
        if i < |head| {
          assert t.samples[i] == c.emitted.value;
          assert c.emitted.value.deltaNs >= MIN_DELTA_NS;
        } else {
          assert t.samples[i] == rest.samples[i - |head|];
          assert rest.samples[i - |head|].deltaNs >= MIN_DELTA_NS;
        }
      }
    }
  }

  /**
   * With non-decreasing edge times, queued capture times strictly increase, and
   * none is later than the final baseline.
   */
  lemma {:induction false} CaptureRunOrdered(lastTimeNs: Option<int>, pulseCount: int, nows: seq<int>)
    requires forall i, j | 0 <= i < j < |nows| :: nows[i] <= nows[j]
    requires lastTimeNs.Some? && nows != [] ==> lastTimeNs.value <= nows[0]
    ensures var t := CaptureRun(lastTimeNs, pulseCount, nows);
            (forall i, j | 0 <= i < j < |t.samples| :: t.samples[i].nowNs < t.samples[j].nowNs)
            && (forall i | 0 <= i < |t.samples| :: t.lastTimeNs.Some? && t.samples[i].nowNs <= t.lastTimeNs.value)
    decreases |nows|
  {
    if nows != [] {
      var c := Debounce(lastTimeNs, pulseCount, nows[0]);
      var rest := CaptureRun(c.lastTimeNs, c.pulseCount, nows[1..]);
      CaptureRunOrdered(c.lastTimeNs, c.pulseCount, nows[1..]);
      CaptureRunBaseline(c.lastTimeNs, c.pulseCount, nows[1..]);
      CaptureRunIntervals(c.lastTimeNs, c.pulseCount, nows[1..]);
      var t := CaptureRun(lastTimeNs, pulseCount, nows);
      assert t.samples == Emitted(c.emitted) + rest.samples;
      if c.emitted.Some? {
        // every later sample is at least MIN_DELTA_NS after a baseline >= nows[0]
        assert forall k | 0 <= k < |rest.samples| :: rest.samples[k].nowNs > nows[0] by {
          CaptureRunAfter(c.lastTimeNs, c.pulseCount, nows[1..]);
        }
      }
    }
  }

  /** Every queued capture time is at least MIN_DELTA_NS past the starting baseline. */
  lemma {:induction false} CaptureRunAfter(lastTimeNs: Option<int>, pulseCount: int, nows: seq<int>)
    requires forall i, j | 0 <= i < j < |nows| :: nows[i] <= nows[j]
    requires lastTimeNs.Some? && nows != [] ==> lastTimeNs.value <= nows[0]
    ensures lastTimeNs.Some? ==> AllAtOrAfter(CaptureRun(lastTimeNs, pulseCount, nows).samples, lastTimeNs.value + MIN_DELTA_NS)
    decreases |nows|
  {
    if nows != [] {
      var c := Debounce(lastTimeNs, pulseCount, nows[0]);
      CaptureRunAfter(c.lastTimeNs, c.pulseCount, nows[1..]);
      var rest := CaptureRun(c.lastTimeNs, c.pulseCount, nows[1..]);
      var t := CaptureRun(lastTimeNs, pulseCount, nows);
      var head := Emitted(c.emitted);
      assert t.samples == head + rest.samples;
      if lastTimeNs.Some? {
        forall k | 0 <= k < |t.samples| ensures t.samples[k].nowNs >= lastTimeNs.value + MIN_DELTA_NS {
          if k < |head| {
            assert t.samples[k] == c.emitted.value;
          } else {
            assert t.samples[k] == rest.samples[k - |head|];
          }
        }
      }
    }
  }

  /**
   * Three edges 10 ms apart: the first sets the baseline, the other two are queued
   * with a 10 ms interval each, give 6000 rpm, and (constant speed) zero torque.
   */
  lemma ThreePulsesScenario()
    ensures CaptureRun(None, 0, [0, 10_000_000, 20_000_000]).samples
         == [Sample(1, 10_000_000, 10_000_000), Sample(2, 10_000_000, 20_000_000)]
    ensures var rs := Series(PI_SCRIPT, NoPrev, [Sample(1, 10_000_000, 10_000_000), Sample(2, 10_000_000, 20_000_000)]);
            rs[0].rpm == 6000.0 && rs[1].rpm == 6000.0 && rs[0].torque == 0.0 && rs[1].torque == 0.0
  {
  }

  class Script {
    var lastTimeNs: Option<int>
    var pulseCount: int
    var recordingActive: bool
    var queue: seq<Sample>
    var rpmLog: seq<real>
    var torqueData: seq<real>
    var powerData: seq<real>
    var timestampLog: seq<real>
    // locals of the writer loop, carried across its iterations
    var prevOmega: Option<real>
    var prevTimeS: Option<real>

    /** The four series stay parallel, and nothing in the queue can make the writer divide by zero. */
    ghost predicate Valid()
      reads this
    {
      |torqueData| == |rpmLog| && |powerData| == |rpmLog| && |timestampLog| == |rpmLog|
      && (prevOmega.Some? <==> prevTimeS.Some?)
      && forall i | 0 <= i < |queue| :: queue[i].deltaNs >= MIN_DELTA_NS
    }

    /** Program start: no baseline, nothing recorded, and the writer has no previous record. */
    constructor ()
      ensures Valid()
      ensures lastTimeNs == None && pulseCount == 0 && !recordingActive && queue == []
      ensures rpmLog == [] && torqueData == [] && powerData == [] && timestampLog == []
      ensures prevOmega == None && prevTimeS == None
    {
      lastTimeNs, pulseCount, recordingActive, queue := None, 0, false, [];
      rpmLog, torqueData, powerData, timestampLog := [], [], [], [];
      prevOmega, prevTimeS := None, None;
    }

    /** The edge callback: debounce, count and queue, independently of the recording flag. */
    method EncoderCallback(nowNs: int)
      requires Valid()
      modifies this`lastTimeNs, this`pulseCount, this`queue
      ensures Valid()
      ensures var c := Debounce(old(lastTimeNs), old(pulseCount), nowNs);
              lastTimeNs == c.lastTimeNs && pulseCount == c.pulseCount
              && queue == old(queue) + Emitted(c.emitted)
    {
      if lastTimeNs.Some? {
        var deltaNs := nowNs - lastTimeNs.value;
        if deltaNs >= MIN_DELTA_NS {
          pulseCount := pulseCount + 1;
          queue := queue + [Sample(pulseCount, deltaNs, nowNs)];
        }
      } else {
        lastTimeNs := Some(nowNs);
      }
      lastTimeNs := Some(nowNs);
    }

    /**
     * One iteration of the writer loop. On an empty queue the writer blocks: nothing
     * changes. Otherwise it takes the oldest sample; while not recording the sample
     * is dropped, else one record is appended to each series and remembered.
     */
    method WriterStep()
      requires Valid()
      modifies this`queue, this`rpmLog, this`torqueData, this`powerData, this`timestampLog,
               this`prevOmega, this`prevTimeS
      ensures Valid()
      ensures old(queue) == [] ==> queue == [] && unchanged(this)
      ensures old(queue) != [] ==> queue == old(queue)[1..]
      ensures old(queue) != [] && !recordingActive ==>
                rpmLog == old(rpmLog) && torqueData == old(torqueData) && powerData == old(powerData)
                && timestampLog == old(timestampLog) && prevOmega == old(prevOmega) && prevTimeS == old(prevTimeS)
      ensures old(queue) != [] && recordingActive ==>
                var m := Measure(PI_SCRIPT, Prev(old(prevOmega), old(prevTimeS)), old(queue)[0].deltaNs, old(queue)[0].nowNs);
                rpmLog == old(rpmLog) + [m.rpm] && torqueData == old(torqueData) + [m.torque]
                && powerData == old(powerData) + [m.power] && timestampLog == old(timestampLog) + [m.timeS]
                && prevOmega == Some(m.omega) && prevTimeS == Some(m.timeS)
    {
      if queue == [] {
        return;
      }
      var s := queue[0];
      queue := queue[1..];
      if !recordingActive {
        return;
      }
      var m := Measure(PI_SCRIPT, Prev(prevOmega, prevTimeS), s.deltaNs, s.nowNs);
      rpmLog := rpmLog + [m.rpm];
      torqueData := torqueData + [m.torque];
      powerData := powerData + [m.power];
      timestampLog := timestampLog + [m.timeS];
      prevOmega := Some(m.omega);
      prevTimeS := Some(m.timeS);
    }

    /**
     * The Start/Stop button. Start resets the pulse counter, empties the four series
     * and turns recording on; stop only turns recording off. Neither touches the
     * baseline, the queue or the writer's previous record.
     */
    method ToggleRecording()
      requires Valid()
      modifies this`recordingActive, this`pulseCount, this`rpmLog, this`torqueData, this`powerData,
               this`timestampLog
      ensures Valid()
      ensures recordingActive == !old(recordingActive)
      ensures !old(recordingActive) ==>
                pulseCount == 0 && rpmLog == [] && torqueData == [] && powerData == [] && timestampLog == []
      ensures old(recordingActive) ==>
                pulseCount == old(pulseCount) && rpmLog == old(rpmLog) && torqueData == old(torqueData)
                && powerData == old(powerData) && timestampLog == old(timestampLog)
    {
      if !recordingActive {
        pulseCount := 0;
        rpmLog := [];
        torqueData := [];
        powerData := [];
        timestampLog := [];
        recordingActive := true;
      } else {
        recordingActive := false;
      }
    }
  }
}
