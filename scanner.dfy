/** The scan technologists (src/core/workflows/scanner.py): handover, setup,
    scan and exit on one magnet, with the split of magnet time into value-added
    scanning and overhead, and the choice of the scan duration from the
    patient's protocol parameters. */
module ScannerFlow {
  import opened Sim
  import opened HeadlessEntities
  import opened Tracker
  import opened Aggregator
  import opened Base

  /** The scan technologist of a magnet: the first for the 3T magnet, the
      second for any other, falling back to the first when there is only one. */
  function ScanTechIndex(magnetId: string, n: nat): (i: nat)
    requires n > 0
    ensures i < n
    ensures i == 1 <==> magnetId != "3T" && n >= 2
  {
    var idx := if magnetId == "3T" then 0 else 1;
    if idx < n then idx else 0
  }

  /** The configured handover time, 2.0 minutes when none is configured. A
      triangular entry has no single value (the scan would fail on it). */
  function HandoverTime(processTimes: map<string, TimeParams>): (r: Option<real>)
    ensures "handover" !in processTimes ==> r == Some(2.0)
    ensures "handover" in processTimes ==>
              (r.Some? <==> processTimes["handover"].Scalar?)
  {
    if "handover" !in processTimes then Some(2.0)
    else match processTimes["handover"]
      case Scalar(v) => Some(v)
      case Triangular(_, _, _) => None
  }

  /** Whether the protocol parameters are truthy: a non-empty sequence, a
      non-empty dictionary, or another truthy value. */
  predicate Truthy(sp: ScanParams) {
    match sp
      case TupleParams(items) => |items| > 0
      case DictParams(m, s, other) => m.Some? || s.Some? || other
      case OtherParams(t) => t
  }

  /** The scan duration: the triangular sample `triDraw` for a non-empty
      (min, mode, max) sequence; for a non-empty dictionary the normal sample
      `mean + std·z` (mean 25.0 and std 0.0 when missing) floored at 5.0;
      otherwise the default scan duration. */
  function ScanTime(params: Option<ScanParams>, triDraw: real, z: real, defaultScan: real): (r: real)
    ensures params.None? ==> r == defaultScan
    ensures params.Some? && !Truthy(params.value) ==> r == defaultScan
    ensures params.Some? && params.value.OtherParams? ==> r == defaultScan
    ensures params.Some? && params.value.TupleParams? && Truthy(params.value) ==> r == triDraw
    ensures params.Some? && params.value.DictParams? && Truthy(params.value) ==>
              var sample := params.value.mean.GetOr(25.0) + params.value.std.GetOr(0.0) * z;
              r >= 5.0 && r >= sample && (r == 5.0 || r == sample)
  {
    if params.Some? && Truthy(params.value) then
      match params.value
        case TupleParams(_) => triDraw
        case DictParams(m, s, _) =>
          var sample := m.GetOr(25.0) + s.GetOr(0.0) * z;
          if sample > 5.0 then sample else 5.0
        case OtherParams(_) => defaultScan
    else defaultScan
  }

  /** A dictionary with no spread is scanned for its mean, but never under
      five minutes. */
  lemma DictWithoutSpread(mean: real, z: real, triDraw: real, defaultScan: real)
    ensures ScanTime(Some(DictParams(Some(mean), None, false)), triDraw, z, defaultScan)
            == if mean > 5.0 then mean else 5.0
  {
  }

  /** The magnet-time split after one scan's four metrics: the scan is
      value-added, handover, setup and exit are overhead, and gap time is
      untouched. */
  lemma ScanSplit(t: MagnetTime, m: string, handover: real, setup: real, scan: real, exit: real)
    ensures Accumulate(t, [MetricCall(m, "handover", handover), MetricCall(m, "setup", setup),
                           MetricCall(m, "scan", scan), MetricCall(m, "exit", exit)])
            == MagnetTime(t.valueAdded + scan, t.overhead + handover + setup + exit, t.gap)
  {
    var calls := [MetricCall(m, "handover", handover), MetricCall(m, "setup", setup),
                  MetricCall(m, "scan", scan), MetricCall(m, "exit", exit)];
    assert "handover" in OverheadTypes && "setup" in OverheadTypes && "exit" in OverheadTypes;
    assert calls[..1][..0] == [];
    assert Accumulate(t, calls[..1]) == t.(overhead := t.overhead + handover);
    assert calls[..2][..1] == calls[..1];
    assert Accumulate(t, calls[..2]) == t.(overhead := t.overhead + handover + setup);
    assert calls[..3][..2] == calls[..2];
    assert Accumulate(t, calls[..3]) == MagnetTime(t.valueAdded + scan, t.overhead + handover + setup, t.gap);
    assert calls[..3] == calls[..|calls| - 1];
  }

  /** `ScanWorkflow`: the scan technologists and the metric aggregator. */
  class ScanWorkflow {
    const env: Env
    const stats: MetricAggregator
    const scanTechs: seq<Staff>
    const processTimes: map<string, TimeParams>

    constructor (env: Env, stats: MetricAggregator, scanTechs: seq<Staff>, processTimes: map<string, TimeParams>)
      ensures this.env == env && this.stats == stats && this.scanTechs == scanTechs
      ensures this.processTimes == processTimes
    {
      this.env := env;
      this.stats := stats;
      this.scanTechs := scanTechs;
      this.processTimes := processTimes;
    }

    /** Handover: the technologist is busy, the handover is logged, and the
        patient goes prepped → scanning. */
    method Handover(tech: Staff, p: Patient, magnetId: string, handover: real)
      requires stats.Valid() && stats.base.Valid() && handover >= 0.0
      modifies tech, env, stats`counts, stats`magnetMetrics, stats`metricCalls, p`state
      modifies stats.base`patientsArrived, stats.base`patientsInSystem, stats.base`stateChanges, stats.base`stateCalls
      ensures stats.Valid() && stats.base.Valid()
      ensures tech.busy && tech.busyTrace == old(tech.busyTrace) + [true]
      ensures p.state == Some(Scanning)
      ensures stats.base.stateCalls == old(stats.base.stateCalls)
                                       + [StateChange(p.pId, Some(Prepped), Scanning, old(env.now) + handover)]
      ensures stats.base.patientsInSystem == old(stats.base.patientsInSystem)
      ensures stats.metricCalls == old(stats.metricCalls) + [MetricCall(magnetId, "handover", handover)]
      ensures stats.counts == old(stats.counts)
      ensures stats.magnetMetrics == Classify(old(stats.magnetMetrics), MetricCall(magnetId, "handover", handover))
      ensures env.now == old(env.now) + handover
    {
      ghost var calls := stats.base.stateCalls + [StateChange(p.pId, Some(Prepped), Scanning, env.now + handover)];
      tech.SetBusy(true);
      env.Timeout(handover);
      stats.LogMagnetMetric(magnetId, "handover", handover);
      p.SetState(Scanning);
      stats.base.LogStateChange(p.pId, Some(Prepped), Scanning, env.now);
      assert stats.base.stateCalls == calls;
    }

    /** Setup: the room shows busy and the setup is logged. */
    method Setup(magnet: MagnetConfig, setup: real)
      requires stats.Valid() && setup >= 0.0
      modifies env, stats`counts, stats`magnetMetrics, stats`metricCalls, magnet
      ensures stats.Valid()
      ensures magnet.visualTrace == old(magnet.visualTrace) + [Busy] && magnet.visualState == Busy
      ensures stats.metricCalls == old(stats.metricCalls) + [MetricCall(magnet.id, "setup", setup)]
      ensures stats.counts == old(stats.counts)
      ensures stats.magnetMetrics == Classify(old(stats.magnetMetrics), MetricCall(magnet.id, "setup", setup))
      ensures env.now == old(env.now) + setup
    {
      magnet.SetVisual(Busy);
      env.Timeout(setup);
      stats.LogMagnetMetric(magnet.id, "setup", setup);
    }

    /** The scan: the magnet is logged as scanning from now for the scan
        time, which counts as busy and occupied time; the patient keeps the
        scan time. */
    method RunScan(p: Patient, magnetId: string, scan: real)
      requires stats.Valid() && stats.base.Valid() && scan >= 0.0
      modifies env, stats`counts, stats`magnetMetrics, stats`metricCalls, p`scanDuration
      modifies stats.base`magnetStart, stats.base`magnetState, stats.base`magnetBusyTime, stats.base`magnetOccupiedTime
      ensures stats.Valid() && stats.base.Valid()
      ensures stats.base.magnetStart == None && stats.base.magnetState == Idle
      ensures stats.base.magnetBusyTime == old(stats.base.magnetBusyTime) + scan
      ensures stats.base.magnetOccupiedTime == old(stats.base.magnetOccupiedTime) + scan
      ensures stats.metricCalls == old(stats.metricCalls) + [MetricCall(magnetId, "scan", scan)]
      ensures stats.counts == old(stats.counts)
      ensures stats.magnetMetrics == Classify(old(stats.magnetMetrics), MetricCall(magnetId, "scan", scan))
      ensures p.scanDuration == Some(scan)
      ensures env.now == old(env.now) + scan
    {
      stats.base.LogMagnetStart(env.now, true);
      env.Timeout(scan);
      stats.LogMagnetMetric(magnetId, "scan", scan);
      p.scanDuration := Some(scan);
      stats.base.LogMagnetEnd(env.now);
    }

    /** Exit: the exit is logged, the room shows dirty and the technologist
        is free again. */
    method EndScan(tech: Staff, magnet: MagnetConfig, exit: real)
      requires stats.Valid() && exit >= 0.0
      modifies tech, env, stats`counts, stats`magnetMetrics, stats`metricCalls, magnet
      ensures stats.Valid()
      ensures !tech.busy && tech.busyTrace == old(tech.busyTrace) + [false]
      ensures stats.magnetMetrics == Classify(old(stats.magnetMetrics), MetricCall(magnet.id, "exit", exit))
      ensures magnet.visualTrace == old(magnet.visualTrace) + [Dirty] && magnet.visualState == Dirty
      ensures stats.metricCalls == old(stats.metricCalls) + [MetricCall(magnet.id, "exit", exit)]
      ensures stats.counts == old(stats.counts)
      ensures env.now == old(env.now) + exit
    {
      env.Timeout(exit);
      stats.LogMagnetMetric(magnet.id, "exit", exit);
      magnet.SetVisual(Dirty);
      tech.SetBusy(false);
    }

    /** Handover then setup: the technologist is busy, the patient is
        scanning, the room shows busy and two overhead metrics are logged. */
    method Prepare(tech: Staff, p: Patient, magnet: MagnetConfig, handover: real, setup: real)
      requires stats.Valid() && stats.base.Valid() && handover >= 0.0 && setup >= 0.0
      modifies tech, env, magnet, p`state, stats`counts, stats`magnetMetrics, stats`metricCalls
      modifies stats.base`patientsArrived, stats.base`patientsInSystem, stats.base`stateChanges, stats.base`stateCalls
      ensures stats.Valid() && stats.base.Valid()
      ensures tech.busy && tech.busyTrace == old(tech.busyTrace) + [true]
      ensures p.state == Some(Scanning)
      ensures stats.base.stateCalls == old(stats.base.stateCalls)
                                       + [StateChange(p.pId, Some(Prepped), Scanning, old(env.now) + handover)]
      ensures stats.base.patientsInSystem == old(stats.base.patientsInSystem)
      ensures stats.metricCalls == old(stats.metricCalls)
                                   + [MetricCall(magnet.id, "handover", handover), MetricCall(magnet.id, "setup", setup)]
      ensures stats.counts == old(stats.counts)
      ensures stats.magnetMetrics == old(stats.magnetMetrics).(overhead := old(stats.magnetMetrics).overhead + handover + setup)
      ensures magnet.visualTrace == old(magnet.visualTrace) + [Busy] && magnet.visualState == Busy
      ensures env.now == old(env.now) + handover + setup
    {
      ghost var metrics := stats.metricCalls
                           + [MetricCall(magnet.id, "handover", handover), MetricCall(magnet.id, "setup", setup)];
      assert "handover" in OverheadTypes && "setup" in OverheadTypes;
      Handover(tech, p, magnet.id, handover);
      Setup(magnet, setup);
      assert stats.metricCalls == metrics;
    }

    /** The scan then the exit: the scan is value-added and busy time, the
        exit is overhead, the room is left dirty and the technologist free. */
    method ScanAndExit(tech: Staff, p: Patient, magnet: MagnetConfig, scan: real, exit: real)
      requires stats.Valid() && stats.base.Valid() && scan >= 0.0 && exit >= 0.0
      modifies tech, env, magnet, p`scanDuration, stats`counts, stats`magnetMetrics, stats`metricCalls
      modifies stats.base`magnetStart, stats.base`magnetState, stats.base`magnetBusyTime, stats.base`magnetOccupiedTime
      ensures stats.Valid() && stats.base.Valid()
      ensures !tech.busy && tech.busyTrace == old(tech.busyTrace) + [false]
      ensures p.scanDuration == Some(scan)
      ensures stats.metricCalls == old(stats.metricCalls)
                                   + [MetricCall(magnet.id, "scan", scan), MetricCall(magnet.id, "exit", exit)]
      ensures stats.counts == old(stats.counts)
      ensures stats.magnetMetrics == MagnetTime(old(stats.magnetMetrics).valueAdded + scan,
                                                old(stats.magnetMetrics).overhead + exit, old(stats.magnetMetrics).gap)
      ensures stats.base.magnetBusyTime == old(stats.base.magnetBusyTime) + scan
      ensures stats.base.magnetOccupiedTime == old(stats.base.magnetOccupiedTime) + scan
      ensures magnet.visualTrace == old(magnet.visualTrace) + [Dirty] && magnet.visualState == Dirty
      ensures env.now == old(env.now) + scan + exit
    {
      ghost var metrics := stats.metricCalls + [MetricCall(magnet.id, "scan", scan), MetricCall(magnet.id, "exit", exit)];
      assert "exit" in OverheadTypes;
      RunScan(p, magnet.id, scan);
      EndScan(tech, magnet, exit);
      assert stats.metricCalls == metrics;
    }

    /** The four steps of a scan with the given durations, in order. */
    method Examine(tech: Staff, p: Patient, magnet: MagnetConfig, handover: real, setup: real, scan: real, exit: real)
      requires stats.Valid() && stats.base.Valid()
      requires handover >= 0.0 && setup >= 0.0 && scan >= 0.0 && exit >= 0.0
      modifies tech, env, magnet, p`state, p`scanDuration, stats`counts, stats`magnetMetrics, stats`metricCalls
      modifies stats.base`patientsArrived, stats.base`patientsInSystem, stats.base`stateChanges, stats.base`stateCalls
      modifies stats.base`magnetStart, stats.base`magnetState, stats.base`magnetBusyTime, stats.base`magnetOccupiedTime
      ensures !tech.busy && tech.busyTrace == old(tech.busyTrace) + [true, false]
      ensures stats.Valid() && stats.base.Valid()
      ensures p.state == Some(Scanning) && p.scanDuration == Some(scan)
      ensures stats.base.stateCalls == old(stats.base.stateCalls)
                                       + [StateChange(p.pId, Some(Prepped), Scanning, old(env.now) + handover)]
      ensures stats.metricCalls == old(stats.metricCalls)
                                   + [MetricCall(magnet.id, "handover", handover), MetricCall(magnet.id, "setup", setup),
                                      MetricCall(magnet.id, "scan", scan), MetricCall(magnet.id, "exit", exit)]
      ensures stats.magnetMetrics == MagnetTime(old(stats.magnetMetrics).valueAdded + scan,
                                                old(stats.magnetMetrics).overhead + handover + setup + exit,
                                                old(stats.magnetMetrics).gap)
      ensures env.now == old(env.now) + handover + setup + scan + exit
      ensures stats.counts == old(stats.counts)
      ensures stats.base.patientsInSystem == old(stats.base.patientsInSystem)
      ensures stats.base.magnetBusyTime == old(stats.base.magnetBusyTime) + scan
      ensures stats.base.magnetOccupiedTime == old(stats.base.magnetOccupiedTime) + scan
      ensures magnet.visualTrace == old(magnet.visualTrace) + [Busy, Dirty] && magnet.visualState == Dirty
    {
      ghost var metrics := stats.metricCalls
                           + [MetricCall(magnet.id, "handover", handover), MetricCall(magnet.id, "setup", setup),
                              MetricCall(magnet.id, "scan", scan), MetricCall(magnet.id, "exit", exit)];
      Prepare(tech, p, magnet, handover, setup);
      ScanAndExit(tech, p, magnet, scan, exit);
      assert stats.metricCalls == metrics;
    }

    /** `execute_scan`: the magnet's scan technologist is busy for handover,
        setup, scan and exit and free after; the four metrics are logged in
        that order, so the scan adds to value-added time and the other three to
        overhead; the patient is scanning, the room is left dirty, and the
        magnet counts the scan as busy time. The draws are the samples for the
        setup, the scan and the exit. */
    method ExecuteScan(p: Patient, magnet: MagnetConfig, setupDraw: real, triDraw: real, z: real,
                       scanDraw: real, exitDraw: real)
      returns (tech: Staff, scan: real)
      requires |scanTechs| > 0 && stats.Valid() && stats.base.Valid()
      requires HandoverTime(processTimes).Some? && HandoverTime(processTimes).value >= 0.0
      requires GetTime(processTimes, "scan_setup", setupDraw) >= 0.0
      requires GetTime(processTimes, "scan_exit", exitDraw) >= 0.0
      requires ScanTime(p.scanParams, triDraw, z, GetTime(processTimes, "scan_duration", scanDraw)) >= 0.0
      modifies scanTechs[ScanTechIndex(magnet.id, |scanTechs|)], env, magnet, p`state, p`scanDuration
      modifies stats`counts, stats`magnetMetrics, stats`metricCalls
      modifies stats.base`patientsArrived, stats.base`patientsInSystem, stats.base`stateChanges, stats.base`stateCalls
      modifies stats.base`magnetStart, stats.base`magnetState, stats.base`magnetBusyTime, stats.base`magnetOccupiedTime
      ensures tech == scanTechs[ScanTechIndex(magnet.id, |scanTechs|)]
      ensures !tech.busy && tech.busyTrace == old(tech.busyTrace) + [true, false]
      ensures stats.Valid() && stats.base.Valid()
      ensures scan == ScanTime(p.scanParams, triDraw, z, GetTime(processTimes, "scan_duration", scanDraw))
      ensures p.state == Some(Scanning) && p.scanDuration == Some(scan)
      ensures var handover := HandoverTime(processTimes).value;
              var setup := GetTime(processTimes, "scan_setup", setupDraw);
              var exit := GetTime(processTimes, "scan_exit", exitDraw);
              && stats.base.stateCalls == old(stats.base.stateCalls)
                                          + [StateChange(p.pId, Some(Prepped), Scanning, old(env.now) + handover)]
              && stats.metricCalls == old(stats.metricCalls)
                                      + [MetricCall(magnet.id, "handover", handover), MetricCall(magnet.id, "setup", setup),
                                         MetricCall(magnet.id, "scan", scan), MetricCall(magnet.id, "exit", exit)]
              && stats.magnetMetrics == MagnetTime(old(stats.magnetMetrics).valueAdded + scan,
                                                   old(stats.magnetMetrics).overhead + handover + setup + exit,
                                                   old(stats.magnetMetrics).gap)
              && env.now == old(env.now) + handover + setup + scan + exit
      ensures stats.counts == old(stats.counts)
      ensures stats.base.patientsInSystem == old(stats.base.patientsInSystem)
      ensures stats.base.magnetBusyTime == old(stats.base.magnetBusyTime) + scan
      ensures stats.base.magnetOccupiedTime == old(stats.base.magnetOccupiedTime) + scan
      ensures magnet.visualTrace == old(magnet.visualTrace) + [Busy, Dirty] && magnet.visualState == Dirty
    {
      tech := scanTechs[ScanTechIndex(magnet.id, |scanTechs|)];
      var handover := HandoverTime(processTimes).value;
      var setup := GetTime(processTimes, "scan_setup", setupDraw);
      scan := ScanTime(p.scanParams, triDraw, z, GetTime(processTimes, "scan_duration", scanDraw));
      var exit := GetTime(processTimes, "scan_exit", exitDraw);
      Examine(tech, p, magnet, handover, setup, scan, exit);
    }
  }
}
