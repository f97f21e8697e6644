/**
 * Preparation of the summary plot's data: rows of (rpm, torque, power) taken in
 * step from three lists, as `zip` does (stopping at the shortest), keeping the
 * rows whose torque and power are both non-negative and converting power to kW.
 */
module Plotter {

  /** Three parallel output lists. */
  datatype Columns = Columns(rpm: seq<real>, torque: seq<real>, power: seq<real>)

  /** Number of rows `zip` yields: the length of the shortest list. */
  function ZipLength(a: seq<real>, b: seq<real>, c: seq<real>): (n: nat)
    ensures n <= |a| && n <= |b| && n <= |c|
    ensures n == |a| || n == |b| || n == |c|
  {
    if |a| <= |b| && |a| <= |c| then |a| else if |b| <= |c| then |b| else |c|
  }

  predicate Kept(torque: real, power: real)
  {
    torque >= 0.0 && power >= 0.0
  }

  /** The cleaned columns built from the first `n` rows. */
  function Cleaned(rpm: seq<real>, torque: seq<real>, power: seq<real>, n: nat): (c: Columns)
    requires n <= |rpm| && n <= |torque| && n <= |power|
    ensures |c.torque| == |c.rpm| && |c.power| == |c.rpm| && |c.rpm| <= n
    decreases n
  {
    if n == 0 then Columns([], [], [])
    else
      var c := Cleaned(rpm, torque, power, n - 1);
      if Kept(torque[n - 1], power[n - 1]) then
        Columns(c.rpm + [rpm[n - 1]], c.torque + [torque[n - 1]], c.power + [power[n - 1] / 1000.0])
      else c
  }

  /** The row numbers, among the first `n`, that survive the filter, in order. */
  function KeptRows(torque: seq<real>, power: seq<real>, n: nat): seq<nat>
    requires n <= |torque| && n <= |power|
    decreases n
  {
    if n == 0 then []
    else KeptRows(torque, power, n - 1) + (if Kept(torque[n - 1], power[n - 1]) then [n - 1] else [])
  }

  /** The kept rows are strictly increasing, and a row is kept iff its torque and power are non-negative. */
  lemma {:induction false} KeptRowsExactly(torque: seq<real>, power: seq<real>, n: nat)
    requires n <= |torque| && n <= |power|
    ensures var ks := KeptRows(torque, power, n);
            (forall k | 0 <= k < |ks| :: ks[k] < n)
            && (forall k, l | 0 <= k < l < |ks| :: ks[k] < ks[l])
            && (forall j | 0 <= j < n :: j in ks <==> Kept(torque[j], power[j]))
    decreases n
  {
    if n > 0 {
      KeptRowsExactly(torque, power, n - 1);
    }
  }

  /**
   * The cleaned columns are the kept rows, in their original order: rpm and torque
   * copied unchanged, power divided by 1000.
   */
  lemma {:induction false} CleanedSelectsKeptRows(rpm: seq<real>, torque: seq<real>, power: seq<real>, n: nat)
    requires n <= |rpm| && n <= |torque| && n <= |power|
    ensures var c := Cleaned(rpm, torque, power, n);
            var ks := KeptRows(torque, power, n);
            |c.rpm| == |ks|
            && forall k | 0 <= k < |ks| ::
                 ks[k] < n && c.rpm[k] == rpm[ks[k]] && c.torque[k] == torque[ks[k]]
                 && c.power[k] * 1000.0 == power[ks[k]]
    decreases n
  {
    if n > 0 {
      CleanedSelectsKeptRows(rpm, torque, power, n - 1);
    }
  }

  /** Equal-length lists without negative torque or power come through whole. */
  lemma {:induction false} CleanedKeepsAll(rpm: seq<real>, torque: seq<real>, power: seq<real>, n: nat)
    requires n <= |rpm| && n <= |torque| && n <= |power|
    requires forall j | 0 <= j < n :: Kept(torque[j], power[j])
    ensures var c := Cleaned(rpm, torque, power, n);
            c.rpm == rpm[..n] && c.torque == torque[..n] && |c.power| == n
    decreases n
  {
    if n > 0 {
      CleanedKeepsAll(rpm, torque, power, n - 1);
      assert rpm[..n] == rpm[..n - 1] + [rpm[n - 1]];
      assert torque[..n] == torque[..n - 1] + [torque[n - 1]];
    }
  }

  /** The filter loop of the summary plot. */
  method CleanData(rpmLog: seq<real>, torqueLog: seq<real>, powerLog: seq<real>)
    returns (cleanRpmLog: seq<real>, cleanTorqueLog: seq<real>, cleanPowerLog: seq<real>)
    ensures Columns(cleanRpmLog, cleanTorqueLog, cleanPowerLog)
         == Cleaned(rpmLog, torqueLog, powerLog, ZipLength(rpmLog, torqueLog, powerLog))
    ensures |cleanTorqueLog| == |cleanRpmLog| && |cleanPowerLog| == |cleanRpmLog|
    ensures |cleanRpmLog| <= |rpmLog| && |cleanRpmLog| <= |torqueLog| && |cleanRpmLog| <= |powerLog|
  {
    cleanRpmLog, cleanTorqueLog, cleanPowerLog := [], [], [];
    var n := ZipLength(rpmLog, torqueLog, powerLog);
    for i := 0 to n
      invariant Columns(cleanRpmLog, cleanTorqueLog, cleanPowerLog) == Cleaned(rpmLog, torqueLog, powerLog, i)
    {
      var r, t, p := rpmLog[i], torqueLog[i], powerLog[i];
      if t >= 0.0 && p >= 0.0 {
        cleanRpmLog := cleanRpmLog + [r];
        cleanTorqueLog := cleanTorqueLog + [t];
        cleanPowerLog := cleanPowerLog + [p / 1000.0];
      }
    }
  }
}
