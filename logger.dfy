/**
 * The logger of the modular application: a sample queue gated by the recording
 * flag on both ends, a writer loop that derives rpm, torque and power and appends
 * them to four parallel lists, and the operation that empties those lists.
 * The writer runs on its own thread; here each of its iterations is one call of
 * `WriterStep`. An exception in that thread ends it, which `writerAlive` records.
 */
module Logger {
  import opened Measurement

  class Logger {
    var queue: seq<Sample>
    var recordingActive: bool
    var rpmLog: seq<real>
    var torqueLog: seq<real>
    var powerLog: seq<real>
    var timestampLog: seq<real>
    var prevOmega: Option<real>
    var prevTimeS: Option<real>
    var writerAlive: bool

    /** The four lists stay parallel; the writer remembers omega and time together. */
    ghost predicate Valid()
      reads this
    {
      |torqueLog| == |rpmLog| && |powerLog| == |rpmLog| && |timestampLog| == |rpmLog|
      && (prevOmega.Some? <==> prevTimeS.Some?)
    }

    /** A new logger: nothing queued or recorded, no previous record, writer thread started. */
    constructor ()
      ensures Valid()
      ensures queue == [] && !recordingActive && writerAlive
      ensures rpmLog == [] && torqueLog == [] && powerLog == [] && timestampLog == []
      ensures prevOmega == None && prevTimeS == None
    {
      queue, recordingActive := [], false;
      rpmLog, torqueLog, powerLog, timestampLog := [], [], [], [];
      prevOmega, prevTimeS := None, None;
      writerAlive := true;
    }

    /** Producer side: a sample is queued only while recording. */
    method EnqueData(pulseIdx: int, deltaNs: int, nowNs: int)
      requires Valid()
      modifies this`queue
      ensures Valid()
      ensures recordingActive ==> queue == old(queue) + [Sample(pulseIdx, deltaNs, nowNs)]
      ensures !recordingActive ==> queue == old(queue)
    {
      if recordingActive {
        queue := queue + [Sample(pulseIdx, deltaNs, nowNs)];
      }
    }

    /**
     * rpm, omega, torque and power for an interval and a capture time, using the
     * remembered previous record; it reads the logger and changes nothing. A zero
     * interval raises ZeroDivisionError.
     */
    function ComputeData(deltaNs: int, nowNs: int): (r: Result<Record>)
      reads this
      ensures r.Failure? <==> deltaNs == 0
      ensures r.Success? ==>
                r.value == Measure(PI_LOGGER, Prev(prevOmega, prevTimeS), deltaNs, nowNs)
                && r.value.rpm * (deltaNs as real) == 60.0 * NS_PER_S
                && r.value.timeS * NS_PER_S == nowNs as real
                && r.value.power == r.value.torque * r.value.omega
      ensures r.Success? && (prevOmega.None? || prevTimeS.None?) ==> r.value.torque == 0.0
    {
      if deltaNs == 0 then Failure(ZeroDivisionError)
      else Success(Measure(PI_LOGGER, Prev(prevOmega, prevTimeS), deltaNs, nowNs))
    }

    /**
     * One iteration of the writer loop. On an empty queue, or after the thread has
     * died, nothing changes. Otherwise the oldest sample is taken; while not
     * recording it is dropped; a zero interval ends the thread; else one record is
     * appended to each list and becomes the remembered previous record.
     */
    method WriterStep()
      requires Valid()
      modifies this`queue, this`rpmLog, this`torqueLog, this`powerLog, this`timestampLog,
               this`prevOmega, this`prevTimeS, this`writerAlive
      ensures Valid()
      ensures old(queue) == [] || !old(writerAlive) ==> unchanged(this)
      ensures old(queue) != [] && old(writerAlive) ==> queue == old(queue)[1..]
      ensures old(queue) != [] && old(writerAlive) && (!recordingActive || old(queue)[0].deltaNs == 0) ==>
                rpmLog == old(rpmLog) && torqueLog == old(torqueLog) && powerLog == old(powerLog)
                && timestampLog == old(timestampLog) && prevOmega == old(prevOmega) && prevTimeS == old(prevTimeS)
                && writerAlive == (!recordingActive || old(queue)[0].deltaNs != 0)
      ensures old(queue) != [] && old(writerAlive) && recordingActive && old(queue)[0].deltaNs != 0 ==>
                var m := Measure(PI_LOGGER, Prev(old(prevOmega), old(prevTimeS)), old(queue)[0].deltaNs, old(queue)[0].nowNs);
                rpmLog == old(rpmLog) + [m.rpm] && torqueLog == old(torqueLog) + [m.torque]
                && powerLog == old(powerLog) + [m.power] && timestampLog == old(timestampLog) + [m.timeS]
                && prevOmega == Some(m.omega) && prevTimeS == Some(m.timeS) && writerAlive
    {
      if queue == [] || !writerAlive {
        return;
      }
      var s := queue[0];
      queue := queue[1..];
      if !recordingActive {
        return;
      }
      var r := ComputeData(s.deltaNs, s.nowNs);
      if r.Failure? {
        writerAlive := false;
        return;
      }
      var m := r.value;
      rpmLog := rpmLog + [m.rpm];
      torqueLog := torqueLog + [m.torque];
      powerLog := powerLog + [m.power];
      timestampLog := timestampLog + [m.timeS];
      prevOmega := Some(m.omega);
      prevTimeS := Some(m.timeS);
    }

    /**
     * The writer loop run until the queue is empty, with no producer or toggle in
     * between: the samples are consumed in FIFO order; while recording, the lists
     * grow by exactly the series those samples define, otherwise they are all dropped.
     */
    method DrainQueue()
      requires Valid() && writerAlive
      requires NonZeroIntervals(queue)
      modifies this`queue, this`rpmLog, this`torqueLog, this`powerLog, this`timestampLog,
               this`prevOmega, this`prevTimeS, this`writerAlive
      ensures Valid() && writerAlive && queue == []
      ensures var rs := if recordingActive then Series(PI_LOGGER, Prev(old(prevOmega), old(prevTimeS)), old(queue)) else [];
              rpmLog == old(rpmLog) + Column(rs, Rpm) && torqueLog == old(torqueLog) + Column(rs, Torque)
              && powerLog == old(powerLog) + Column(rs, Power) && timestampLog == old(timestampLog) + Column(rs, Time)
              && Prev(prevOmega, prevTimeS) == After(Prev(old(prevOmega), old(prevTimeS)), rs)
    {
      ghost var q0 := queue;
      ghost var p0 := Prev(prevOmega, prevTimeS);
      ghost var i := 0;
      ghost var rs: seq<Record> := [];
      while queue != []
        invariant Valid() && writerAlive
        invariant 0 <= i <= |q0| && queue == q0[i..]
        invariant NonZeroIntervals(q0[..i])
        invariant rs == if recordingActive then Series(PI_LOGGER, p0, q0[..i]) else []
        invariant rpmLog == old(rpmLog) + Column(rs, Rpm)
        invariant torqueLog == old(torqueLog) + Column(rs, Torque)
        invariant powerLog == old(powerLog) + Column(rs, Power)
        invariant timestampLog == old(timestampLog) + Column(rs, Time)
        invariant Prev(prevOmega, prevTimeS) == After(p0, rs)
        decreases |queue|
      {
        WriterStep();
        if recordingActive {
          var m := DrainStep(p0, q0, i);
          ColumnSnoc(rs, m, Rpm);
          ColumnSnoc(rs, m, Torque);
          ColumnSnoc(rs, m, Power);
          ColumnSnoc(rs, m, Time);
          rs := rs + [m];
        }
        i := i + 1;
        assert NonZeroIntervals(q0[..i]);
      }
      assert q0[..i] == q0;
    }

    /** Empties the four lists; the flag, the queue and the previous record are kept. */
    method CleanData()
      requires Valid()
      modifies this`rpmLog, this`torqueLog, this`powerLog, this`timestampLog
      ensures Valid()
      ensures rpmLog == [] && torqueLog == [] && powerLog == [] && timestampLog == []
    {
      rpmLog := [];
      torqueLog := [];
      powerLog := [];
      timestampLog := [];
    }
  }

  /** One more sample extends the series by the record computed from the memory so far. */
  lemma DrainStep(p0: Prev, q0: seq<Sample>, i: nat) returns (m: Record)
    requires NonZeroIntervals(q0) && i < |q0|
    ensures NonZeroIntervals(q0[..i]) && NonZeroIntervals(q0[..i + 1])
    ensures m == Measure(PI_LOGGER, After(p0, Series(PI_LOGGER, p0, q0[..i])), q0[i].deltaNs, q0[i].nowNs)
    ensures Series(PI_LOGGER, p0, q0[..i + 1]) == Series(PI_LOGGER, p0, q0[..i]) + [m]
  {
    SeriesPrefix(PI_LOGGER, p0, q0, i + 1);
    assert q0[..i + 1][..i] == q0[..i];
    m := Measure(PI_LOGGER, After(p0, Series(PI_LOGGER, p0, q0[..i])), q0[i].deltaNs, q0[i].nowNs);
  }

  /**
   * A windowed sample of 42 pulses in 0.5 s is logged at 120 rpm: the rate is taken
   * from the interval alone, as if the window held a single pulse.
   */
  lemma WindowedRpmIgnoresPulses(prev: Prev, nowNs: int)
    ensures Series(PI_LOGGER, prev, [Sample(42, 500_000_000, nowNs)])[0].rpm == 120.0
    ensures Series(PI_LOGGER, prev, [Sample(42, 500_000_000, nowNs)])
         == Series(PI_LOGGER, prev, [Sample(1, 500_000_000, nowNs)])
  {
    SeriesAt(PI_LOGGER, prev, [Sample(42, 500_000_000, nowNs)], 0);
    SeriesIgnoresIndex(PI_LOGGER, prev, [Sample(42, 500_000_000, nowNs)], [Sample(1, 500_000_000, nowNs)]);
  }

  /**
   * The previous record survives a stop and a restart, so the first record of a new
   * session is differentiated against the last one of the old session: here a
   * remembered 0 rad/s at 1 s gives a non-zero torque for a 6000 rpm sample at 2 s.
   */
  lemma RestartKeepsPrevious()
    ensures Measure(PI_LOGGER, Prev(Some(0.0), Some(1.0)), 10_000_000, 2_000_000_000).torque > 0.0
  {
  }
}
