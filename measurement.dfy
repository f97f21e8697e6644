/**
 * Shared vocabulary of the measurement pipeline: the integer triples that travel
 * through the sample queue, the physical quantities derived from one of them, and
 * the finite-difference torque computation that both writer loops perform.
 * Floating-point numbers are modelled as `real`; only structural facts about them
 * are stated.
 */
module Measurement {

  datatype Option<T> = None | Some(value: T)

  /** Moment of inertia of the rotating mass, in kg·m². */
  const MOMENT_OF_INERTIA: real := 0.038

  /** The approximations of pi used by the stand-alone script and by the logger. */
  const PI_SCRIPT: real := 3.1416
  const PI_LOGGER: real := 3.14159

  const NS_PER_S: real := 1000000000.0

  /** One queued item: (pulse index or pulses in a window, interval in ns, capture time in ns). */
  datatype Sample = Sample(index: int, deltaNs: int, nowNs: int)

  /** The values one writer iteration derives from a sample. */
  datatype Record = Record(rpm: real, omega: real, torque: real, power: real, timeS: real)

  /** The writer's memory of the previous record (`prev_omega`, `prev_time_s`). */
  datatype Prev = Prev(omega: Option<real>, timeS: Option<real>)
  {
    predicate Known() { omega.Some? && timeS.Some? }
  }

  const NoPrev: Prev := Prev(None, None)

  /** The exception the writer raises on a zero interval. */
  datatype Fault = ZeroDivisionError

  datatype Result<T> = Success(value: T) | Failure(error: Fault)

  /** The queue item produced by a capture step, as a sequence of zero or one elements. */
  function Emitted(o: Option<Sample>): (s: seq<Sample>)
    ensures o.None? ==> s == []
    ensures o.Some? ==> s == [o.value]
  {
    if o.Some? then [o.value] else []
  }

  /**
   * rpm, omega, torque and power of one sample, given the previous record's omega
   * and time. Torque is the finite difference I·Δω/Δt, and zero when there is no
   * previous record or when time did not advance.
   */
  function Measure(pi: real, prev: Prev, deltaNs: int, nowNs: int): (r: Record)
    requires deltaNs != 0
    ensures r.rpm * (deltaNs as real) == 60.0 * NS_PER_S
    ensures r.omega * 60.0 == 2.0 * pi * r.rpm
    ensures r.timeS * NS_PER_S == nowNs as real
    ensures !prev.Known() || r.timeS <= prev.timeS.value ==> r.torque == 0.0
    ensures prev.Known() && r.timeS > prev.timeS.value ==>
              r.torque * (r.timeS - prev.timeS.value) == MOMENT_OF_INERTIA * (r.omega - prev.omega.value)
    ensures r.power == r.torque * r.omega
  {
    var rpm := 60.0 * NS_PER_S / (deltaNs as real);
    var omega := 2.0 * pi * rpm / 60.0;
    var nowS := nowNs as real / NS_PER_S;
    var torque :=
      if prev.Known() then
        var deltaT := nowS - prev.timeS.value;
        if deltaT > 0.0 then MOMENT_OF_INERTIA * (omega - prev.omega.value) / deltaT else 0.0
      else 0.0;
    Record(rpm, omega, torque, torque * omega, nowS)
  }

  predicate NonZeroIntervals(samples: seq<Sample>)
  {
    forall i | 0 <= i < |samples| :: samples[i].deltaNs != 0
  }

  /** The memory a writer holds after producing the records `rs`, starting from `prev`. */
  function After(prev: Prev, rs: seq<Record>): (p: Prev)
    ensures rs != [] ==> p.Known()
  {
    if rs == [] then prev else Prev(Some(rs[|rs| - 1].omega), Some(rs[|rs| - 1].timeS))
  }

  /**
   * The records a writer produces when it processes `samples` one after another,
   * starting from the memory `prev`; each record remembers its predecessor.
   */
  function Series(pi: real, prev: Prev, samples: seq<Sample>): (rs: seq<Record>)
    requires NonZeroIntervals(samples)
    ensures |rs| == |samples|
    decreases |samples|
  {
    if samples == [] then []
    else
      var init := Series(pi, prev, samples[..|samples| - 1]);
      var s := samples[|samples| - 1];
      init + [Measure(pi, After(prev, init), s.deltaNs, s.nowNs)]
  }

  /** The four quantities a writer appends to its parallel lists. */
  datatype Quantity = Rpm | Torque | Power | Time

  function Get(r: Record, q: Quantity): real
  {
    match q
    case Rpm => r.rpm
    case Torque => r.torque
    case Power => r.power
    case Time => r.timeS
  }

  /** One parallel list: quantity `q` of every record, in order. */
  function Column(rs: seq<Record>, q: Quantity): (c: seq<real>)
    ensures |c| == |rs|
    ensures forall i | 0 <= i < |rs| :: c[i] == Get(rs[i], q)
  {
    seq(|rs|, i requires 0 <= i < |rs| => Get(rs[i], q))
  }

  lemma ColumnSnoc(rs: seq<Record>, r: Record, q: Quantity)
    ensures Column(rs + [r], q) == Column(rs, q) + [Get(r, q)]
  {
    assert Column(rs + [r], q)[..|rs|] == Column(rs, q);
  }

  /** Series of a prefix is the prefix of the series: a record depends on earlier samples only. */
  lemma {:induction false} SeriesPrefix(pi: real, prev: Prev, samples: seq<Sample>, k: nat)
    requires NonZeroIntervals(samples)
    requires k <= |samples|
    ensures NonZeroIntervals(samples[..k])
    ensures Series(pi, prev, samples[..k]) == Series(pi, prev, samples)[..k]
    decreases |samples|
  {
    assert NonZeroIntervals(samples[..k]);
    if k < |samples| {
      var init := samples[..|samples| - 1];
      assert init[..k] == samples[..k];
      SeriesPrefix(pi, prev, init, k);
    } else {
      assert samples[..k] == samples;
    }
  }

  /**
   * FIFO: the i-th record is computed from the i-th sample, with the memory left by
   * the records before it.
   */
  lemma {:induction false} SeriesAt(pi: real, prev: Prev, samples: seq<Sample>, i: nat)
    requires NonZeroIntervals(samples)
    requires i < |samples|
    ensures NonZeroIntervals(samples[..i])
    ensures Series(pi, prev, samples)[i]
         == Measure(pi, After(prev, Series(pi, prev, samples[..i])), samples[i].deltaNs, samples[i].nowNs)
  {
    SeriesPrefix(pi, prev, samples, i + 1);
    SeriesPrefix(pi, prev, samples, i);
    assert samples[..i + 1][..i] == samples[..i];
  }

  /** Each record carries the capture time of the sample it was computed from. */
  lemma {:induction false} SeriesTimeAt(pi: real, prev: Prev, samples: seq<Sample>, i: nat)
    requires NonZeroIntervals(samples)
    requires i < |samples|
    ensures Series(pi, prev, samples)[i].timeS * NS_PER_S == samples[i].nowNs as real
  {
    SeriesAt(pi, prev, samples, i);
  }

  /** Without a remembered record, the first record of a series has zero torque and power. */
  lemma {:induction false} SeriesFirstTorque(pi: real, samples: seq<Sample>)
    requires NonZeroIntervals(samples)
    requires samples != []
    ensures Series(pi, NoPrev, samples)[0].torque == 0.0
    ensures Series(pi, NoPrev, samples)[0].power == 0.0
  {
    SeriesAt(pi, NoPrev, samples, 0);
  }

  /** Records come out in time order whenever the samples' capture times do. */
  lemma {:induction false} SeriesTimeOrdered(pi: real, prev: Prev, samples: seq<Sample>)
    requires NonZeroIntervals(samples)
    requires forall i, j | 0 <= i < j < |samples| :: samples[i].nowNs <= samples[j].nowNs
    ensures forall i, j | 0 <= i < j < |samples| ::
              Series(pi, prev, samples)[i].timeS <= Series(pi, prev, samples)[j].timeS
  {
    forall i, j | 0 <= i < j < |samples|
      ensures Series(pi, prev, samples)[i].timeS <= Series(pi, prev, samples)[j].timeS
    {
      SeriesTimeAt(pi, prev, samples, i);
      SeriesTimeAt(pi, prev, samples, j);
    }
  }

  /** The pulse index of a sample plays no part in the records: only interval and time do. */
  lemma {:induction false} SeriesIgnoresIndex(pi: real, prev: Prev, a: seq<Sample>, b: seq<Sample>)
    requires NonZeroIntervals(a)
    requires |a| == |b|
    requires forall i | 0 <= i < |a| :: a[i].deltaNs == b[i].deltaNs && a[i].nowNs == b[i].nowNs
    ensures NonZeroIntervals(b)
    ensures Series(pi, prev, a) == Series(pi, prev, b)
    decreases |a|
  {
    if a != [] {
      SeriesIgnoresIndex(pi, prev, a[..|a| - 1], b[..|b| - 1]);
    }
  }
}
