/** `MetricAggregator` (src/analysis/stats.py): the batch-run collector that
    extends `SimStats` with resource occupancy accumulators, a value-added vs
    overhead split of magnet time, protocol counters, patient-type counters and
    one record per finished patient. The Python subclass is modelled by
    composition: the aggregator owns its `SimStats` part as `base`. */
module Aggregator {
  import opened Sim
  import opened Tracker
  import opened HeadlessEntities

  /** The `magnet_metrics` dict. */
  datatype MagnetTime = MagnetTime(valueAdded: real, overhead: real, gap: real)

  /** The `counts` dict. */
  datatype Counts = Counts(outpatient: nat, inpatient: nat, lateArrival: nat, noShow: nat)

  /** One `patient_data` entry. */
  datatype PatientRecord = PatientRecord(
    patientType: string, totalTime: real,
    regTime: real, changeTime: real, washTime: real, prepTime: real,
    waitTime: real, scanTime: real, holdingTime: real,
    protocol: string, scanDuration: real, overheadDuration: real)

  /** One `log_magnet_metric` call. */
  datatype MetricCall = MetricCall(magnetId: string, metricType: string, duration: real)

  /** The metric types counted as magnet overhead. */
  const OverheadTypes: set<string> := {"setup", "exit", "flip", "handover"}

  /** The effect of one metric on the magnet-time split. */
  function Classify(t: MagnetTime, c: MetricCall): MagnetTime {
    if c.metricType == "scan" then t.(valueAdded := t.valueAdded + c.duration)
    else if c.metricType in OverheadTypes then t.(overhead := t.overhead + c.duration)
    else t
  }

  /** The split after a sequence of metric calls, starting from `t`. */
  function Accumulate(t: MagnetTime, calls: seq<MetricCall>): MagnetTime {
    if |calls| == 0 then t else Classify(Accumulate(t, calls[..|calls| - 1]), calls[|calls| - 1])
  }

  /** Total duration of the calls of one metric type. */
  function TypeTotal(calls: seq<MetricCall>, metricType: string): real {
    if |calls| == 0 then 0.0
    else TypeTotal(calls[..|calls| - 1], metricType)
         + (if calls[|calls| - 1].metricType == metricType then calls[|calls| - 1].duration else 0.0)
  }

  /** Number of calls of one metric type. */
  function TypeCount(calls: seq<MetricCall>, metricType: string): nat {
    if |calls| == 0 then 0
    else TypeCount(calls[..|calls| - 1], metricType) + (if calls[|calls| - 1].metricType == metricType then 1 else 0)
  }

  /** Value-added time is the total of the 'scan' metrics, overhead the total of
      the setup, exit, flip and handover metrics; the gap is never touched. */
  lemma {:induction false} AccumulateSplit(t: MagnetTime, calls: seq<MetricCall>)
    ensures Accumulate(t, calls).valueAdded == t.valueAdded + TypeTotal(calls, "scan")
    ensures Accumulate(t, calls).overhead ==
              t.overhead + TypeTotal(calls, "setup") + TypeTotal(calls, "exit")
              + TypeTotal(calls, "flip") + TypeTotal(calls, "handover")
    ensures Accumulate(t, calls).gap == t.gap
  {
    if |calls| > 0 {
      AccumulateSplit(t, calls[..|calls| - 1]);
    }
  }

  /** With non-negative durations, neither part of the split ever decreases. */
  lemma {:induction false} AccumulateMonotone(t: MagnetTime, calls: seq<MetricCall>)
    requires forall i :: 0 <= i < |calls| ==> calls[i].duration >= 0.0
    ensures Accumulate(t, calls).valueAdded >= t.valueAdded
    ensures Accumulate(t, calls).overhead >= t.overhead
  {
    if |calls| > 0 {
      AccumulateMonotone(t, calls[..|calls| - 1]);
    }
  }

  /** The record of a finished patient. The headless patient has no `timers`,
      so every time comes from `metrics`, defaulting to 0. */
  function RecordOf(p: Patient, now: real): (r: PatientRecord)
    reads p
    ensures r.totalTime == if p.arrivalTime.Some? then now - p.arrivalTime.value else 0.0
    ensures r.protocol == p.scanProtocol.GetOr("Unknown")
    ensures r.patientType == p.patientType
  {
    PatientRecord(
      p.patientType,
      if p.arrivalTime.Some? then now - p.arrivalTime.value else 0.0,
      MetricOr(p.metrics, "reg"), MetricOr(p.metrics, "change"), MetricOr(p.metrics, "washroom"),
      MetricOr(p.metrics, "prep"), MetricOr(p.metrics, "wait"), MetricOr(p.metrics, "scan_room"),
      MetricOr(p.metrics, "holding_room"),
      p.scanProtocol.GetOr("Unknown"), p.scanDuration.GetOr(0.0), p.overheadDuration.GetOr(0.0))
  }

  function MetricOr(m: map<string, real>, k: string): real {
    if k in m then m[k] else 0.0
  }

  /** `dict.get(k, 0) + 1`. */
  function Bump(m: map<string, nat>, k: string): (r: map<string, nat>)
    ensures r.Keys == m.Keys + {k}
    ensures r[k] == (if k in m then m[k] else 0) + 1
    ensures forall j :: j in m && j != k ==> r[j] == m[j]
  {
    m[k := (if k in m then m[k] else 0) + 1]
  }

  class MetricAggregator {
    const base: SimStats
    var occupiedMinutes: map<string, real>
    var idleMinutes: map<string, real>
    var staffBreakMinutes: map<string, real>
    var magnetMetrics: MagnetTime
    var scanCounts: map<string, nat>
    var counts: Counts
    var patientData: map<int, PatientRecord>
    /** Every metric logged, and every patient finished after the warm-up. */
    ghost var metricCalls: seq<MetricCall>
    ghost var finished: seq<int>

    /** The split is the accumulation of the logged metrics, the no-show count
        is the number of 'noshow' metrics, every finished patient is counted as
        exactly one of inpatient or outpatient, and at most all of them late. */
    ghost predicate Valid()
      reads this`magnetMetrics, this`metricCalls, this`counts, this`finished, this`patientData
    {
      && magnetMetrics == Accumulate(MagnetTime(0.0, 0.0, 0.0), metricCalls)
      && counts.noShow == TypeCount(metricCalls, "noshow")
      && counts.inpatient + counts.outpatient == |finished|
      && counts.lateArrival <= |finished|
      && patientData.Keys == set id | id in finished
    }

    constructor (warmUp: real)
      ensures Valid() && fresh(base) && base.Valid() && base.warmUp == warmUp
      ensures base.patientsInSystem == 0 && base.magnetStart == None
      ensures occupiedMinutes == map["zone1" := 0.0, "change_rooms" := 0.0, "washrooms" := 0.0,
                                     "waiting_room" := 0.0, "room_311" := 0.0, "prep_rooms" := 0.0,
                                     "magnet_3t" := 0.0, "magnet_15t" := 0.0]
      ensures idleMinutes == map["magnet_3t" := 0.0, "magnet_15t" := 0.0]
      ensures staffBreakMinutes == map["porter" := 0.0, "admin" := 0.0, "backup" := 0.0, "scan" := 0.0]
      ensures magnetMetrics == MagnetTime(0.0, 0.0, 0.0)
      ensures counts == Counts(0, 0, 0, 0)
      ensures scanCounts == map[] && patientData == map[]
      ensures metricCalls == [] && finished == []
    {
      base := new SimStats(warmUp);
      occupiedMinutes := map["zone1" := 0.0, "change_rooms" := 0.0, "washrooms" := 0.0,
                             "waiting_room" := 0.0, "room_311" := 0.0, "prep_rooms" := 0.0,
                             "magnet_3t" := 0.0, "magnet_15t" := 0.0];
      idleMinutes := map["magnet_3t" := 0.0, "magnet_15t" := 0.0];
      staffBreakMinutes := map["porter" := 0.0, "admin" := 0.0, "backup" := 0.0, "scan" := 0.0];
      magnetMetrics := MagnetTime(0.0, 0.0, 0.0);
      scanCounts := map[];
      counts := Counts(0, 0, 0, 0);
      patientData := map[];
      metricCalls := [];
      finished := [];
    }

    /** `log_magnet_metric` without the call to a parent method that does not
        exist: 'noshow' counts one no-show, 'scan' is value-added time, setup,
        exit, flip and handover are overhead, anything else only gets logged. */
    method LogMagnetMetric(magnetId: string, metricType: string, duration: real)
      requires Valid()
      modifies this`counts, this`magnetMetrics, this`metricCalls
      ensures Valid()
      ensures metricCalls == old(metricCalls) + [MetricCall(magnetId, metricType, duration)]
      ensures counts == old(counts).(noShow := old(counts).noShow + (if metricType == "noshow" then 1 else 0))
      ensures magnetMetrics == Classify(old(magnetMetrics), MetricCall(magnetId, metricType, duration))
    {
      var call := MetricCall(magnetId, metricType, duration);
      assert (metricCalls + [call])[..|metricCalls|] == metricCalls;
      metricCalls := metricCalls + [call];
      if metricType == "noshow" {
        counts := counts.(noShow := counts.noShow + 1);
      }
      if metricType == "scan" {
        magnetMetrics := magnetMetrics.(valueAdded := magnetMetrics.valueAdded + duration);
      } else if metricType in OverheadTypes {
        magnetMetrics := magnetMetrics.(overhead := magnetMetrics.overhead + duration);
      }
    }

    /** `log_patient_finished` without the call to a parent method that does
        not exist: nothing is recorded before the warm-up ends; afterwards the
        patient's record is stored, its protocol counted, and the patient counted
        as inpatient or outpatient and, when late, as a late arrival. */
    method LogPatientFinished(p: Patient, now: real)
      requires Valid()
      modifies this`patientData, this`scanCounts, this`counts, this`finished
      ensures Valid()
      ensures now < base.warmUp ==>
                patientData == old(patientData) && scanCounts == old(scanCounts)
                && counts == old(counts) && finished == old(finished)
      ensures now >= base.warmUp ==>
                && finished == old(finished) + [p.pId]
                && patientData == old(patientData)[p.pId := RecordOf(p, now)]
                && scanCounts == Bump(old(scanCounts), p.scanProtocol.GetOr("Unknown"))
                && counts.inpatient == old(counts).inpatient + (if p.patientType == "inpatient" then 1 else 0)
                && counts.outpatient == old(counts).outpatient + (if p.patientType == "inpatient" then 0 else 1)
                && counts.lateArrival == old(counts).lateArrival + (if p.isLate then 1 else 0)
                && counts.noShow == old(counts).noShow
    {
      if now < base.warmUp {
        return;
      }
      var record := RecordOf(p, now);
      patientData := patientData[p.pId := record];
      scanCounts := Bump(scanCounts, record.protocol);
      if p.patientType == "inpatient" {
        counts := counts.(inpatient := counts.inpatient + 1);
      } else {
        counts := counts.(outpatient := counts.outpatient + 1);
      }
      if p.isLate {
        counts := counts.(lateArrival := counts.lateArrival + 1);
      }
      finished := finished + [p.pId];
    }
  }

  // ---------------------------------------------------------------------
  // The methods as written: they call parent methods that `SimStats` does
  // not define, and their callers pass one argument too many.
  // ---------------------------------------------------------------------

  /** The method names `SimStats` defines. */
  const SimStatsMethods: set<string> :=
    {"__init__", "log_movement", "log_state_change", "log_completion", "log_magnet_start",
     "log_magnet_end", "log_waiting_room", "calculate_utilization", "get_summary_stats"}

  /** `super().name`: looking up a method on the parent class. */
  function SuperLookup(name: string): (r: Outcome)
    ensures r == Pass <==> name in SimStatsMethods
    ensures r != Pass ==> r == Fail(AttributeError)
  {
    if name in SimStatsMethods then Pass else Fail(AttributeError)
  }

  /** Python binding a call with `args` positional arguments to a method with
      `params` parameters besides `self` and no defaults. */
  function BindArgs(params: nat, args: nat): (r: Outcome)
    ensures r == Pass <==> args == params
  {
    if args == params then Pass else Fail(TypeError)
  }

  /** `log_patient_finished` as written: its first statement is the parent call. */
  function LogPatientFinishedAsWritten(now: real, warmUp: real): Outcome {
    SuperLookup("log_patient_finished")
  }

  /** `log_magnet_metric` as written, called with `args` arguments after `self`. */
  function LogMagnetMetricAsWritten(args: nat, metricType: string): Outcome {
    var bound := BindArgs(3, args);
    if bound != Pass then bound else SuperLookup("log_magnet_metric")
  }

  /** Every finish raises, before as well as after the warm-up. */
  lemma LogPatientFinishedAsWrittenRaises(now: real, warmUp: real)
    ensures LogPatientFinishedAsWritten(now, warmUp) == Fail(AttributeError)
  {
    assert "log_patient_finished" !in SimStatsMethods;
  }

  /** The four-argument calls of the porter and scanner raise a TypeError;
      a three-argument call would still raise on the parent lookup. */
  lemma LogMagnetMetricAsWrittenRaises(metricType: string)
    ensures LogMagnetMetricAsWritten(4, metricType) == Fail(TypeError)
    ensures LogMagnetMetricAsWritten(3, metricType) == Fail(AttributeError)
  {
    assert "log_magnet_metric" !in SimStatsMethods;
  }
}
