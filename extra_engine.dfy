/** The prototype engine with a spatial monitor (extra/engine.py): the same
    booked arrivals as the first engine (its `patient_generator` is
    `LegacyEngine.PatientGenerator`), an override for the bed flip, a list of
    the patients who have arrived, and a once-a-minute snapshot of where each
    of them is. */
module ExtraEngine {
  import opened Sim
  import opened LegacyEntities

  /** Python's `int()` on a float: truncation toward zero. */
  function Trunc(r: real): (n: int)
    ensures r >= 0.0 ==> n as real <= r < n as real + 1.0
    ensures r < 0.0 ==> n as real - 1.0 < r <= n as real
  {
    if r >= 0.0 then r.Floor else -((-r).Floor)
  }

  /** The state a snapshot reads: a patient whose flow has not yet set one
      reads as 'Unknown'. */
  function StateName(state: Option<string>): (s: string)
    ensures state.Some? ==> s == state.value
    ensures state.None? ==> s == "Unknown"
  {
    match state
    case Some(v) => v
    case None => "Unknown"
  }

  /** The zone column of a state: 0 waiting, 1 gowned or in prep, 2 in the
      scanner, 3 done; any other state falls back to the origin. */
  function ZoneX(state: string): (x: int)
    ensures 0 <= x <= 3
    ensures x == 2 <==> state == "Scanning"
    ensures x == 3 <==> state == "Done"
    ensures x == 1 <==> state in {"Prepping", "Changed", "IV Setup"}
  {
    if state == "Arrived/Waiting" then 0
    else if state in {"Prepping", "Changed", "IV Setup"} then 1
    else if state == "Scanning" then 2
    else if state == "Done" then 3
    else 0
  }

  /** The row within the zone: scanning patients sit at row 2, patients in
      an unlisted state at row 0, everyone else at their uniform draw. */
  function ZoneY(state: string, yDraw: real): (y: real)
    ensures state == "Scanning" ==> y == 2.0
    ensures ZoneX(state) == 0 && state != "Arrived/Waiting" ==> y == 0.0
    ensures ZoneX(state) != 2 && (ZoneX(state) != 0 || state == "Arrived/Waiting") ==> y == yDraw
  {
    if state == "Scanning" then 2.0
    else if state == "Arrived/Waiting" || ZoneX(state) != 0 then yDraw
    else 0.0
  }

  datatype SpatialRecord = SpatialRecord(minute: int, patientId: int, state: string, x: int, y: real)

  /** One patient's row of a snapshot taken at `now`. */
  function Snapshot(now: real, id: int, state: Option<string>, yDraw: real): (r: SpatialRecord)
    ensures r.minute == Trunc(now) && r.patientId == id && r.state == StateName(state)
    ensures r.x == ZoneX(r.state) && r.y == ZoneY(r.state, yDraw)
  {
    var s := StateName(state);
    SpatialRecord(Trunc(now), id, s, ZoneX(s), ZoneY(s, yDraw))
  }

  /** A patient the monitor sees before the flow starts is snapshotted as
      'Unknown' at the origin. */
  lemma UnstartedAtOrigin(now: real, id: int, yDraw: real)
    ensures Snapshot(now, id, None, yDraw) == SpatialRecord(Trunc(now), id, "Unknown", 0, 0.0)
  {
  }

  class MRISimulation {
    const simulationHours: int
    const parallel: bool
    const staffCount: int
    const bedFlipOverride: Option<real>
    const patientLogs: RecordLog
    var spatialLogs: seq<SpatialRecord>
    var activePatients: seq<Patient>

    constructor (simulationHours: int, parallel: bool, staffCount: int, bedFlipTime: Option<real>)
      ensures this.simulationHours == simulationHours && this.parallel == parallel
      ensures this.staffCount == staffCount && bedFlipOverride == bedFlipTime
      ensures fresh(patientLogs) && patientLogs.records == [] && spatialLogs == [] && activePatients == []
    {
      this.simulationHours := simulationHours;
      this.parallel := parallel;
      this.staffCount := staffCount;
      bedFlipOverride := bedFlipTime;
      patientLogs := new RecordLog();
      spatialLogs := [];
      activePatients := [];
    }

    /** `_handle_patient`: wait out a positive delay, join the active list
        at the arrival time, then run the flow with this simulation's bed
        flip override; the patient stays on the list after leaving. */
    method HandlePatient(env: Env, res: ResourceTable, p: Patient, cfg: Config, d: Draws, delay: real)
      returns (prepStart: real, scanStart: real, exitTime: real)
      requires res.Valid() && res.Free("magnet") && (parallel ==> res.Free("prep_rooms"))
      requires DrawsOk(d) && cfg.bedFlipFuture >= 0.0 && cfg.bedFlipCurrent >= 0.0
      requires bedFlipOverride.Some? ==> bedFlipOverride.value >= 0.0
      modifies env, res`count, res`events, p`state, p`stateTrace, patientLogs, this`activePatients
      ensures res.Valid() && res.count == old(res.count)
      ensures activePatients == old(activePatients) + [p]
      ensures prepStart == old(env.now) + (if delay > 0.0 then delay else 0.0)
      ensures prepStart <= scanStart <= exitTime == env.now
      ensures exitTime - scanStart == d.scan + BedFlipTime(bedFlipOverride, parallel, cfg.bedFlipFuture, cfg.bedFlipCurrent)
      ensures p.state == Some("Done")
      ensures patientLogs.records == old(patientLogs.records)
                                     + [LogRecord(p.id, p.arrivalTime, prepStart, scanStart, exitTime, Scenario(parallel))]
    {
      if delay > 0.0 {
        env.Timeout(delay);
      }
      activePatients := activePatients + [p];
      prepStart, scanStart, exitTime := p.ProcessFlow(env, res, cfg, d, parallel, bedFlipOverride, Some(patientLogs));
    }

    /** The rows of one snapshot taken at `now`: one per active patient, in
        list order. `yDraws[i]` is the uniform draw for the i-th patient. */
    method TakeSnapshot(now: real, yDraws: seq<real>)
      requires |yDraws| == |activePatients|
      modifies this`spatialLogs
      ensures |spatialLogs| == |old(spatialLogs)| + |activePatients| && spatialLogs[..|old(spatialLogs)|] == old(spatialLogs)
      ensures forall j :: |old(spatialLogs)| <= j < |spatialLogs| ==>
                spatialLogs[j] == Snapshot(now, activePatients[j - |old(spatialLogs)|].id,
                                           activePatients[j - |old(spatialLogs)|].state, yDraws[j - |old(spatialLogs)|])
    {
      for i := 0 to |activePatients|
        invariant |spatialLogs| == |old(spatialLogs)| + i && spatialLogs[..|old(spatialLogs)|] == old(spatialLogs)
        invariant forall j :: |old(spatialLogs)| <= j < |spatialLogs| ==>
                    spatialLogs[j] == Snapshot(now, activePatients[j - |old(spatialLogs)|].id,
                                               activePatients[j - |old(spatialLogs)|].state, yDraws[j - |old(spatialLogs)|])
      {
        var patient := activePatients[i];
        spatialLogs := spatialLogs + [Snapshot(now, patient.id, patient.state, yDraws[i])];
      }
    }

    /** One minute of `monitor_spatial_state`: a snapshot stamped with the
        truncated current minute, then a minute's sleep. */
    method MonitorTick(env: Env, yDraws: seq<real>)
      requires |yDraws| == |activePatients|
      modifies this`spatialLogs, env
      ensures |spatialLogs| == |old(spatialLogs)| + |activePatients| && spatialLogs[..|old(spatialLogs)|] == old(spatialLogs)
      ensures forall j :: |old(spatialLogs)| <= j < |spatialLogs| ==>
                spatialLogs[j] == Snapshot(old(env.now), activePatients[j - |old(spatialLogs)|].id,
                                           activePatients[j - |old(spatialLogs)|].state, yDraws[j - |old(spatialLogs)|])
      ensures env.now == old(env.now) + 1.0
    {
      TakeSnapshot(env.now, yDraws);
      env.Timeout(1.0);
    }
  }
}
