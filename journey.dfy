/** The dual-bay patient journey of the animated front end
    (src/core/workflow.py): arrival, porter transport, changing, prep with
    an optional IV, gowned waiting, routing to the 3T or 1.5T magnet, scan,
    bed flip and exit; and the generator that starts one journey per
    arrival while the shift lasts. */
module PatientJourney {
  import opened Sim
  import opened HeadlessEntities
  import opened Tracker
  import opened Base
  import opened BackupFlow

  /** `triangular_sample`: a plain number is returned unchanged; a triple
      is sampled, and the sample is the parameter `draw`. */
  function TriangularSample(params: TimeParams, draw: real): (r: real)
    ensures params.Scalar? ==> r == params.value
  {
    match params
      case Scalar(v) => v
      case Triangular(_, _, _) => draw
  }

  /** For a configured task the journey's sampler and the modular
      workflows' `get_time` give the same time. */
  lemma SampleAgreesWithGetTime(processTimes: map<string, TimeParams>, task: string, draw: real)
    requires task in processTimes
    ensures TriangularSample(processTimes[task], draw) == GetTime(processTimes, task, draw)
  {
    match processTimes[task]
    case Scalar(v) =>
    case Triangular(_, _, _) =>
  }

  /** The IV delay of the prep step: an IV is needed when the first draw
      falls under its probability, and only then does the second draw decide
      between the difficult and the normal duration (both sampled with
      `ivDraw`). */
  function IvDelay(needsDraw: real, difficultDraw: real, probNeedsIv: real, probDifficultIv: real,
                   ivSetup: TimeParams, ivDifficult: TimeParams, ivDraw: real): (d: real)
    ensures needsDraw >= probNeedsIv ==> d == 0.0
    ensures d == IvTime(needsDraw < probNeedsIv, difficultDraw < probDifficultIv,
                        TriangularSample(ivSetup, ivDraw), TriangularSample(ivDifficult, ivDraw))
  {
    if needsDraw < probNeedsIv then
      if difficultDraw < probDifficultIv then TriangularSample(ivDifficult, ivDraw)
      else TriangularSample(ivSetup, ivDraw)
    else 0.0
  }

  /** The two scanning bays. */
  datatype Bay = Bay3T | Bay15T

  /** The scan technologist that stands for the 1.5T bay: the second one, or
      the only one when there is a single technologist. */
  function Tech15TIndex(n: nat): (i: nat)
    requires n >= 1
    ensures i < n && (i == 1 <==> n > 1)
  {
    if n > 1 then 1 else 0
  }

  /** Prefer the 3T bay when its technologist is idle, else the 1.5T bay
      when its technologist is idle, else wait for the 3T bay. */
  function Route(busy3t: bool, busy15t: bool): (b: Bay)
    ensures b == Bay15T <==> busy3t && !busy15t
  {
    if !busy3t then Bay3T else if !busy15t then Bay15T else Bay3T
  }

  /** The technologist who scans in bay `b`. */
  function TechIndex(b: Bay, n: nat): (i: nat)
    requires n >= 1
    ensures i < n
  {
    if b == Bay3T then 0 else Tech15TIndex(n)
  }

  /** The routing decision on the scan technologists: the chosen one is idle
      exactly when one of the two candidates is, and with a single
      technologist the 3T bay is always chosen. */
  function RouteFor(scans: seq<Staff>): (b: Bay)
    requires |scans| >= 1
    reads scans[0], scans[Tech15TIndex(|scans|)]
    ensures !scans[TechIndex(b, |scans|)].busy <==> !scans[0].busy || !scans[Tech15TIndex(|scans|)].busy
    ensures |scans| == 1 ==> b == Bay3T
  {
    Route(scans[0].busy, scans[Tech15TIndex(|scans|)].busy)
  }

  function MagnetName(b: Bay): string {
    if b == Bay3T then "magnet_3t" else "magnet_15t"
  }

  function StagingKey(b: Bay): string {
    if b == Bay3T then "scan_staging_3t" else "scan_staging_15t"
  }

  /** The screen positions the journey uses: `AGENT_POSITIONS` and the two
      magnet locations. */
  datatype Layout = Layout(positions: map<string, Pos>, loc3t: Pos, loc15t: Pos)

  function MagnetLoc(layout: Layout, b: Bay): Pos {
    if b == Bay3T then layout.loc3t else layout.loc15t
  }

  const JourneyPositions: set<string> :=
    {"zone1_center", "change_1_center", "change_2_center", "change_3_center", "porter_home",
     "prep_1_center", "prep_2_center", "backup_staging", "gowned_waiting_center",
     "scan_staging_3t", "scan_staging_15t", "exit"}

  /** The random choices of one journey: the change room (0..2) and prep
      room (0..1) picked, the IV draws, and the triangular samples. */
  datatype Draws = Draws(changeRoom: nat, prepRoom: nat, needsDraw: real, difficultDraw: real,
                         change: real, iv: real, screening: real, scan: real)

  /** The process-time entries and probabilities the journey reads. */
  datatype Params = Params(processTimes: map<string, TimeParams>, probNeedsIv: real, probDifficultIv: real)

  predicate ParamsOk(params: Params, d: Draws) {
    && {"change", "iv_setup", "iv_difficult", "screening", "scan", "bed_flip_future"} <= params.processTimes.Keys
    && params.processTimes["bed_flip_future"].Scalar?
    && TriangularSample(params.processTimes["change"], d.change) >= 0.0
    && TriangularSample(params.processTimes["screening"], d.screening) >= 0.0
    && TriangularSample(params.processTimes["scan"], d.scan) >= 0.0
    && TriangularSample(params.processTimes["iv_setup"], d.iv) >= 0.0
    && TriangularSample(params.processTimes["iv_difficult"], d.iv) >= 0.0
    && params.processTimes["bed_flip_future"].value >= 0.0
  }

  function ChangeKey(i: nat): string {
    if i == 0 then "change_1_center" else if i == 1 then "change_2_center" else "change_3_center"
  }

  function PrepKey(i: nat): string {
    if i == 0 then "prep_1_center" else "prep_2_center"
  }

  /** The states a journey logs, in order. */
  const JourneyPath: seq<PState> := [Arriving, Changing, Prepped, Scanning, Exited]

  /** 1. Arrival in zone 1 and the one-minute pause. */
  method Arrive(env: Env, stats: SimStats, p: Patient, zone1: Pos)
    requires stats.Valid()
    modifies env, p`state, p.body, stats`patientsArrived, stats`patientsInSystem, stats`stateChanges, stats`stateCalls,
             stats`patientLog
    ensures stats.Valid() && p.state == Some(Arriving)
    ensures p.body.x == zone1.x && p.body.y == zone1.y
    ensures stats.stateCalls == old(stats.stateCalls) + [StateChange(p.pId, None, Arriving, old(env.now))]
    ensures stats.patientsInSystem == old(stats.patientsInSystem) + 1
    ensures env.now == old(env.now) + 1.0
  {
    p.SetState(Arriving);
    p.body.MoveToPoint(zone1);
    stats.LogStateChange(p.pId, None, Arriving, env.now);
    stats.LogMovement(p.pId, "zone1", env.now);
    env.Timeout(1.0);
  }

  /** 2. The porter takes the patient to a change room, marked busy while
      doing so, and is sent home. */
  method Transport(env: Env, res: ResourceTable, stats: SimStats, p: Patient, porter: Staff, changeTarget: Pos, porterHome: Pos)
    requires res.Valid() && res.Free("porter") && p.body != porter.body
    modifies res`count, res`events, porter, porter.body, p.body, stats`patientLog
    ensures res.Valid() && res.count == old(res.count)
    ensures res.events == old(res.events) + [Acquired("porter", None), Released("porter")]
    ensures porter.busyTrace == old(porter.busyTrace) + [true, false] && !porter.busy
    ensures porter.body.x == porterHome.x && porter.body.y == porterHome.y
    ensures p.body.x == changeTarget.x && p.body.y == changeTarget.y
  {
    res.Acquire("porter", None);
    porter.SetBusy(true);
    porter.body.MoveTo(p.body.x, p.body.y);
    p.body.MoveToPoint(changeTarget);
    porter.body.MoveToPoint(changeTarget);
    stats.LogMovement(p.pId, "change_room", env.now);
    porter.SetBusy(false);
    porter.body.MoveToPoint(porterHome);
    PlusThenMinus(old(res.count), "porter");
    res.Release("porter");
  }

  /** 3. Changing. */
  method Change(env: Env, stats: SimStats, p: Patient, changeTime: real)
    requires stats.Valid() && changeTime >= 0.0
    modifies env, p`state, stats`patientsArrived, stats`patientsInSystem, stats`stateChanges, stats`stateCalls
    ensures stats.Valid() && p.state == Some(Changing)
    ensures stats.stateCalls == old(stats.stateCalls) + [StateChange(p.pId, Some(Arriving), Changing, old(env.now))]
    ensures stats.patientsInSystem == old(stats.patientsInSystem)
    ensures env.now == old(env.now) + changeTime
  {
    p.SetState(Changing);
    stats.LogStateChange(p.pId, Some(Arriving), Changing, env.now);
    env.Timeout(changeTime);
  }

  /** 4a. The backup technologist is taken, marked busy and walks the
      patient to the prep room. */
  method PrepStart(env: Env, res: ResourceTable, stats: SimStats, p: Patient, tech: Staff, prepTarget: Pos)
    requires res.Valid() && res.Free("backup_techs") && p.body != tech.body
    modifies res`count, res`events, tech, tech.body, p.body, stats`patientLog
    ensures res.Valid() && res.count == Plus(old(res.count), "backup_techs")
    ensures res.events == old(res.events) + [Acquired("backup_techs", None)]
    ensures tech.busyTrace == old(tech.busyTrace) + [true]
  {
    res.Acquire("backup_techs", None);
    tech.SetBusy(true);
    p.body.MoveToPoint(prepTarget);
    tech.body.MoveToPoint(prepTarget);
    stats.LogMovement(p.pId, "prep_room", env.now);
  }

  /** 4b. IV (if any) and screening, then the patient is prepped and the
      technologist is idle at the backup staging and given back. */
  method PrepFinish(env: Env, res: ResourceTable, stats: SimStats, p: Patient, tech: Staff, staging: Pos,
                    ivTime: real, screenTime: real, ghost before: map<string, nat>)
    requires res.Valid() && "backup_techs" in before && res.count == Plus(before, "backup_techs") && stats.Valid()
    requires ivTime >= 0.0 && screenTime >= 0.0
    modifies env, res`count, res`events, tech, tech.body, p`state,
             stats`patientsArrived, stats`patientsInSystem, stats`stateChanges, stats`stateCalls
    ensures res.Valid() && res.count == before && stats.Valid()
    ensures res.events == old(res.events) + [Released("backup_techs")]
    ensures tech.busyTrace == old(tech.busyTrace) + [false] && !tech.busy
    ensures tech.body.x == staging.x && tech.body.y == staging.y
    ensures p.state == Some(Prepped)
    ensures stats.stateCalls == old(stats.stateCalls) + [StateChange(p.pId, Some(Changing), Prepped, env.now)]
    ensures stats.patientsInSystem == old(stats.patientsInSystem)
    ensures env.now == old(env.now) + ivTime + screenTime
  {
    env.Timeout(ivTime);
    env.Timeout(screenTime);
    p.SetState(Prepped);
    stats.LogStateChange(p.pId, Some(Changing), Prepped, env.now);
    tech.SetBusy(false);
    tech.body.MoveToPoint(staging);
    PlusThenMinus(before, "backup_techs");
    res.Release("backup_techs");
  }

  /** 4. Prep by backup technologist `tech`: busy for the prep, the IV (if
      any) and the screening, then idle at the backup staging. */
  method Prep(env: Env, res: ResourceTable, stats: SimStats, p: Patient, tech: Staff, prepTarget: Pos, staging: Pos,
              ivTime: real, screenTime: real)
    requires res.Valid() && res.Free("backup_techs") && p.body != tech.body && stats.Valid()
    requires ivTime >= 0.0 && screenTime >= 0.0
    modifies env, res`count, res`events, tech, tech.body, p`state, p.body,
             stats`patientsArrived, stats`patientsInSystem, stats`stateChanges, stats`stateCalls, stats`patientLog
    ensures res.Valid() && res.count == old(res.count) && stats.Valid()
    ensures res.events == old(res.events) + [Acquired("backup_techs", None)] + [Released("backup_techs")]
    ensures tech.busyTrace == old(tech.busyTrace) + [true] + [false] && !tech.busy
    ensures p.state == Some(Prepped)
    ensures stats.stateCalls == old(stats.stateCalls) + [StateChange(p.pId, Some(Changing), Prepped, env.now)]
    ensures stats.patientsInSystem == old(stats.patientsInSystem)
    ensures env.now == old(env.now) + ivTime + screenTime
  {
    PrepStart(env, res, stats, p, tech, prepTarget);
    PrepFinish(env, res, stats, p, tech, staging, ivTime, screenTime, old(res.count));
  }

  /** 1-4: from arrival to prepped, with the backup technologist chosen as
      the first idle one (or the first one). */
  method ToPrepped(env: Env, res: ResourceTable, stats: SimStats, p: Patient, porter: Staff, backups: seq<Staff>,
                   layout: Layout, params: Params, d: Draws) returns (chosen: nat)
    requires res.Valid() && res.Free("porter") && res.Free("backup_techs") && stats.Valid()
    requires |backups| >= 1 && p.body != porter.body
    requires forall i :: 0 <= i < |backups| ==> backups[i].body != p.body && backups[i] != porter
    requires JourneyPositions <= layout.positions.Keys && ParamsOk(params, d)
    modifies env, res`count, res`events, porter, porter.body, p`state, p.body, stats`patientsArrived,
             stats`patientsInSystem, stats`stateChanges, stats`stateCalls, stats`patientLog
    modifies if |backups| > 0 then {backups[ChooseTech(backups)], backups[ChooseTech(backups)].body} else {}
    ensures chosen == old(ChooseTech(backups))
    ensures res.Valid() && res.count == old(res.count) && stats.Valid()
    ensures res.events == old(res.events) + [Acquired("porter", None), Released("porter")]
                                          + [Acquired("backup_techs", None)] + [Released("backup_techs")]
    ensures backups[chosen].busyTrace == old(backups[chosen].busyTrace) + [true] + [false] && !backups[chosen].busy
    ensures p.state == Some(Prepped)
    ensures stats.stateCalls == old(stats.stateCalls) + [StateChange(p.pId, None, Arriving, old(env.now))]
              + [StateChange(p.pId, Some(Arriving), Changing, old(env.now) + 1.0)]
              + [StateChange(p.pId, Some(Changing), Prepped, env.now)]
    ensures stats.patientsInSystem == old(stats.patientsInSystem) + 1
  {
    chosen := ChooseTech(backups);
    var tech := backups[chosen];
    var pt := params.processTimes;
    Arrive(env, stats, p, layout.positions["zone1_center"]);
    Transport(env, res, stats, p, porter, layout.positions[ChangeKey(d.changeRoom)], layout.positions["porter_home"]);
    Change(env, stats, p, TriangularSample(pt["change"], d.change));
    var iv := IvDelay(d.needsDraw, d.difficultDraw, params.probNeedsIv, params.probDifficultIv, pt["iv_setup"], pt["iv_difficult"], d.iv);
    Prep(env, res, stats, p, tech, layout.positions[PrepKey(d.prepRoom)], layout.positions["backup_staging"],
         iv, TriangularSample(pt["screening"], d.screening));
  }

  /** 5, as written: the patient reaches gowned waiting, and the call that
      records the wait names a method the statistics tracker does not have,
      so the journey stops with an AttributeError. */
  method GownedWaitAsWritten(env: Env, stats: SimStats, p: Patient, target: Pos) returns (outcome: Outcome)
    modifies p.body, stats`patientLog
    ensures outcome == Fail(AttributeError)
    ensures p.body.x == target.x && p.body.y == target.y
    ensures stats.patientLog == if env.now < stats.warmUp then old(stats.patientLog)
                                else old(stats.patientLog) + [Movement(p.pId, "gowned_waiting", env.now - stats.warmUp)]
  {
    p.body.MoveToPoint(target);
    stats.LogMovement(p.pId, "gowned_waiting", env.now);
    outcome := Fail(AttributeError);
  }

  /** The journey as written: the patient is logged arriving, changing and
      prepped, every unit it took is given back, and the journey stops at
      gowned waiting with an AttributeError; the scan technologists are never
      touched, and the patient never scans or exits. */
  method Journey(env: Env, res: ResourceTable, stats: SimStats, p: Patient, porter: Staff, backups: seq<Staff>,
                 layout: Layout, params: Params, d: Draws) returns (outcome: Outcome)
    requires res.Valid() && res.Free("porter") && res.Free("backup_techs") && stats.Valid()
    requires |backups| >= 1 && p.body != porter.body
    requires forall i :: 0 <= i < |backups| ==> backups[i].body != p.body && backups[i] != porter
    requires JourneyPositions <= layout.positions.Keys && ParamsOk(params, d)
    modifies env, res`count, res`events, porter, porter.body, p`state, p.body, stats`patientsArrived,
             stats`patientsInSystem, stats`stateChanges, stats`stateCalls, stats`patientLog
    modifies if |backups| > 0 then {backups[ChooseTech(backups)], backups[ChooseTech(backups)].body} else {}
    ensures outcome == Fail(AttributeError)
    ensures res.count == old(res.count) && p.state == Some(Prepped)
    ensures |stats.stateCalls| == |old(stats.stateCalls)| + 3
    ensures forall i :: 0 <= i < 3 ==> stats.stateCalls[|old(stats.stateCalls)| + i].newState == JourneyPath[i]
    ensures stats.patientsInSystem == old(stats.patientsInSystem) + 1
  {
    var chosen := ToPrepped(env, res, stats, p, porter, backups, layout, params, d);
    outcome := GownedWaitAsWritten(env, stats, p, layout.positions["gowned_waiting_center"]);
  }

  /** 5, corrected: the wait is recorded in the waiting-room log. */
  method GownedWait(env: Env, stats: SimStats, p: Patient, target: Pos)
    modifies p.body, stats`patientLog, stats`waitingRoomLog
    ensures p.body.x == target.x && p.body.y == target.y
    ensures stats.waitingRoomLog == old(stats.waitingRoomLog) + [WaitEntry(p.pId, env.now, "enter")]
  {
    p.body.MoveToPoint(target);
    stats.LogMovement(p.pId, "gowned_waiting", env.now);
    stats.LogWaitingRoom(p.pId, env.now, "enter");
  }

  /** 6a. The routed technologist is marked busy, the patient is on the
      table and the magnet starts scanning. */
  method ScanStart(env: Env, stats: SimStats, p: Patient, tech: Staff, b: Bay, loc: Pos)
    requires stats.Valid() && p.body != tech.body
    modifies tech, tech.body, p`state, p.body, stats`patientsArrived, stats`patientsInSystem, stats`stateChanges,
             stats`stateCalls, stats`patientLog, stats`magnetStart, stats`magnetState
    ensures stats.Valid() && p.state == Some(Scanning)
    ensures tech.busyTrace == old(tech.busyTrace) + [true]
    ensures stats.stateCalls == old(stats.stateCalls) + [StateChange(p.pId, Some(Prepped), Scanning, env.now)]
    ensures stats.patientsInSystem == old(stats.patientsInSystem)
    ensures stats.magnetStart == Some(env.now) && stats.magnetState == ScanningPhase
  {
    tech.SetBusy(true);
    p.body.MoveToPoint(loc);
    tech.body.MoveTo(loc.x - 30, loc.y);
    p.SetState(Scanning);
    stats.LogStateChange(p.pId, Some(Prepped), Scanning, env.now);
    stats.LogMovement(p.pId, MagnetName(b), env.now);
    stats.LogMagnetStart(env.now, true);
  }

  /** 6b. Scan and bed flip; the magnet time counts as busy, and the
      technologist goes idle to the bay's staging. */
  method ScanFinish(env: Env, stats: SimStats, tech: Staff, staging: Pos, scanTime: real, flipTime: real)
    requires stats.Valid() && stats.magnetStart == Some(env.now) && stats.magnetState == ScanningPhase
    requires scanTime >= 0.0 && flipTime >= 0.0
    modifies env, tech, tech.body, stats`magnetStart, stats`magnetState, stats`magnetBusyTime, stats`magnetOccupiedTime
    ensures stats.Valid()
    ensures tech.busyTrace == old(tech.busyTrace) + [false] && !tech.busy
    ensures tech.body.x == staging.x && tech.body.y == staging.y
    ensures stats.magnetBusyTime == old(stats.magnetBusyTime) + scanTime + flipTime
    ensures stats.magnetOccupiedTime == old(stats.magnetOccupiedTime) + scanTime + flipTime
    ensures env.now == old(env.now) + scanTime + flipTime
  {
    env.Timeout(scanTime);
    env.Timeout(flipTime);
    stats.LogMagnetEnd(env.now);
    tech.SetBusy(false);
    tech.body.MoveToPoint(staging);
  }

  /** 6. The scan in bay `b` by technologist `tech`: busy from routing to
      the end of the bed flip, the magnet occupied and busy for scan plus
      flip, then the technologist goes back to the bay's staging. */
  method Scan(env: Env, stats: SimStats, p: Patient, tech: Staff, b: Bay, loc: Pos, staging: Pos, scanTime: real, flipTime: real)
    requires stats.Valid() && scanTime >= 0.0 && flipTime >= 0.0 && p.body != tech.body
    modifies env, tech, tech.body, p`state, p.body, stats`patientsArrived, stats`patientsInSystem, stats`stateChanges,
             stats`stateCalls, stats`patientLog, stats`magnetStart, stats`magnetState, stats`magnetBusyTime,
             stats`magnetOccupiedTime
    ensures stats.Valid() && p.state == Some(Scanning)
    ensures tech.busyTrace == old(tech.busyTrace) + [true] + [false] && !tech.busy
    ensures stats.stateCalls == old(stats.stateCalls) + [StateChange(p.pId, Some(Prepped), Scanning, old(env.now))]
    ensures stats.patientsInSystem == old(stats.patientsInSystem)
    ensures stats.magnetBusyTime == old(stats.magnetBusyTime) + scanTime + flipTime
    ensures env.now == old(env.now) + scanTime + flipTime
  {
    ScanStart(env, stats, p, tech, b, loc);
    ScanFinish(env, stats, tech, staging, scanTime, flipTime);
  }

  /** 7. Exit: the patient leaves the system. */
  method Exit(env: Env, stats: SimStats, p: Patient, target: Pos)
    requires stats.Valid()
    modifies p.body, stats`patientsArrived, stats`patientsInSystem, stats`stateChanges, stats`stateCalls, stats`patientLog
    ensures stats.Valid()
    ensures stats.stateCalls == old(stats.stateCalls) + [StateChange(p.pId, Some(Scanning), Exited, env.now)]
    ensures stats.patientsInSystem == if old(stats.patientsInSystem) == 0 then 0 else old(stats.patientsInSystem) - 1
  {
    p.body.MoveToPoint(target);
    stats.LogStateChange(p.pId, Some(Scanning), Exited, env.now);
    stats.LogMovement(p.pId, "exit", env.now);
  }

  /** 6-7 without the magnet resource: routing, scan and exit. */
  method RouteScanExit(env: Env, stats: SimStats, p: Patient, scans: seq<Staff>, layout: Layout, scanTime: real, flipTime: real)
    returns (b: Bay)
    requires stats.Valid() && |scans| >= 1
    requires forall i :: 0 <= i < |scans| ==> scans[i].body != p.body
    requires JourneyPositions <= layout.positions.Keys && scanTime >= 0.0 && flipTime >= 0.0
    modifies env, p`state, p.body, stats`patientsArrived, stats`patientsInSystem,
             stats`stateChanges, stats`stateCalls, stats`patientLog, stats`magnetStart, stats`magnetState,
             stats`magnetBusyTime, stats`magnetOccupiedTime
    modifies scans[0], scans[0].body, scans[Tech15TIndex(|scans|)], scans[Tech15TIndex(|scans|)].body
    ensures stats.Valid() && b == old(RouteFor(scans))
    ensures scans[TechIndex(b, |scans|)].busyTrace == old(scans[TechIndex(b, |scans|)].busyTrace) + [true] + [false]
    ensures stats.stateCalls == old(stats.stateCalls) + [StateChange(p.pId, Some(Prepped), Scanning, old(env.now))]
                                                      + [StateChange(p.pId, Some(Scanning), Exited, env.now)]
    ensures stats.magnetBusyTime == old(stats.magnetBusyTime) + scanTime + flipTime
    ensures stats.patientsInSystem == if old(stats.patientsInSystem) == 0 then 0 else old(stats.patientsInSystem) - 1
  {
    b := RouteFor(scans);
    var tech := scans[TechIndex(b, |scans|)];
    Scan(env, stats, p, tech, b, MagnetLoc(layout, b), layout.positions[StagingKey(b)], scanTime, flipTime);
    Exit(env, stats, p, layout.positions["exit"]);
  }

  /** 6-7: the magnet request, routing, scan and exit. The journey asks for
      a resource named 'magnet'; where there is none the lookup fails with a
      KeyError. Otherwise the wait ends in the waiting-room log, the routed
      technologist is busy during the scan and idle after the flip, and the
      patient leaves. */
  method ScanAndExit(env: Env, res: ResourceTable, stats: SimStats, p: Patient, scans: seq<Staff>, layout: Layout,
                     scanTime: real, flipTime: real) returns (outcome: Outcome, bay: Option<Bay>)
    requires res.Valid() && stats.Valid() && |scans| >= 1
    requires "magnet" in res.capacity ==> res.Free("magnet")
    requires forall i :: 0 <= i < |scans| ==> scans[i].body != p.body
    requires JourneyPositions <= layout.positions.Keys && scanTime >= 0.0 && flipTime >= 0.0
    modifies env, res`count, res`events, p`state, p.body, stats`patientsArrived, stats`patientsInSystem,
             stats`stateChanges, stats`stateCalls, stats`patientLog, stats`magnetStart, stats`magnetState,
             stats`magnetBusyTime, stats`magnetOccupiedTime, stats`waitingRoomLog
    modifies scans[0], scans[0].body, scans[Tech15TIndex(|scans|)], scans[Tech15TIndex(|scans|)].body
    ensures res.Valid() && stats.Valid() && res.count == old(res.count)
    ensures outcome == Pass <==> "magnet" in res.capacity
    ensures bay.Some? <==> outcome == Pass
    ensures bay.Some? ==> bay.value == old(RouteFor(scans))
    ensures bay.Some? ==> scans[TechIndex(bay.value, |scans|)].busyTrace
                            == old(scans[TechIndex(bay.value, |scans|)].busyTrace) + [true] + [false]
    ensures bay.Some? ==> res.events == old(res.events) + [Acquired("magnet", None)] + [Released("magnet")]
    ensures bay.Some? ==> stats.stateCalls == old(stats.stateCalls) + [StateChange(p.pId, Some(Prepped), Scanning, old(env.now))]
                                                                  + [StateChange(p.pId, Some(Scanning), Exited, env.now)]
    ensures bay.Some? ==> stats.waitingRoomLog == old(stats.waitingRoomLog) + [WaitEntry(p.pId, old(env.now), "exit")]
    ensures bay.Some? ==> stats.magnetBusyTime == old(stats.magnetBusyTime) + scanTime + flipTime
    ensures bay.Some? ==> stats.patientsInSystem == if old(stats.patientsInSystem) == 0 then 0 else old(stats.patientsInSystem) - 1
    ensures bay.None? ==> stats.stateCalls == old(stats.stateCalls) && stats.patientsInSystem == old(stats.patientsInSystem)
  {
    if "magnet" !in res.capacity {
      return Fail(KeyError), None;
    }
    res.Acquire("magnet", None);
    stats.LogWaitingRoom(p.pId, env.now, "exit");
    var b := RouteScanExit(env, stats, p, scans, layout, scanTime, flipTime);
    PlusThenMinus(old(res.count), "magnet");
    res.Release("magnet");
    return Pass, Some(b);
  }

  /** The journey with the gowned wait recorded in the waiting-room log:
      where a 'magnet' resource exists the patient is logged arriving,
      changing, prepped, scanning and exited, the in-system count is back
      where it was, and every unit taken is given back; without one the
      journey stops at the magnet request. */
  method JourneyLogged(env: Env, res: ResourceTable, stats: SimStats, p: Patient, porter: Staff, backups: seq<Staff>,
                       scans: seq<Staff>, layout: Layout, params: Params, d: Draws) returns (outcome: Outcome)
    requires res.Valid() && res.Free("porter") && res.Free("backup_techs") && stats.Valid()
    requires "magnet" in res.capacity ==> res.Free("magnet")
    requires |backups| >= 1 && |scans| >= 1 && p.body != porter.body
    requires forall i :: 0 <= i < |backups| ==> backups[i].body != p.body && backups[i] != porter
    requires forall i :: 0 <= i < |scans| ==> scans[i].body != p.body
    requires JourneyPositions <= layout.positions.Keys && ParamsOk(params, d)
    modifies env, res`count, res`events, porter, porter.body, p`state, p.body, stats
    modifies if |backups| > 0 then {backups[ChooseTech(backups)], backups[ChooseTech(backups)].body} else {}
    modifies if |scans| > 0 then {scans[0], scans[0].body, scans[Tech15TIndex(|scans|)], scans[Tech15TIndex(|scans|)].body} else {}
    ensures res.Valid() && res.count == old(res.count)
    ensures outcome == Pass <==> "magnet" in res.capacity
    ensures outcome == Pass ==> |stats.stateCalls| == |old(stats.stateCalls)| + |JourneyPath|
    ensures outcome == Pass ==> forall i :: 0 <= i < |JourneyPath| ==>
              stats.stateCalls[|old(stats.stateCalls)| + i].newState == JourneyPath[i]
              && stats.stateCalls[|old(stats.stateCalls)| + i].patientId == p.pId
    ensures outcome == Pass ==> stats.patientsInSystem == old(stats.patientsInSystem)
  {
    var chosen := ToPrepped(env, res, stats, p, porter, backups, layout, params, d);
    GownedWait(env, stats, p, layout.positions["gowned_waiting_center"]);
    var flip := params.processTimes["bed_flip_future"].value;
    var bay;
    outcome, bay := ScanAndExit(env, res, stats, p, scans, layout, TriangularSample(params.processTimes["scan"], d.scan), flip);
  }

  /** The sum of the first `n` inter-arrival gaps. */
  function Elapsed(gaps: seq<real>, n: nat): real
    requires n <= |gaps|
  {
    if n == 0 then 0.0 else Elapsed(gaps, n - 1) + gaps[n - 1]
  }

  /** The generator's clock never runs backwards: later patients are created
      no earlier than earlier ones. */
  lemma {:induction false} ElapsedMonotone(gaps: seq<real>, i: nat, j: nat)
    requires i <= j <= |gaps|
    requires forall k :: 0 <= k < |gaps| ==> gaps[k] >= 0.0
    ensures Elapsed(gaps, i) <= Elapsed(gaps, j)
    decreases j - i
  {
    if i < j {
      ElapsedMonotone(gaps, i, j - 1);
    }
  }

  /** `patient_generator`: while the shift lasts, the next patient (ids 1, 2,
      3, ...) is created at the current time and the generator waits the next
      inter-arrival gap. The gaps are the exponential draws, in order; the
      model stops when they run out. */
  method PatientGenerator(env: Env, duration: real, gaps: seq<real>) returns (ids: seq<int>, ghost createdAt: seq<real>)
    requires forall i :: 0 <= i < |gaps| ==> gaps[i] >= 0.0
    modifies env
    ensures |ids| == |createdAt| <= |gaps|
    ensures forall i :: 0 <= i < |ids| ==> ids[i] == i + 1
    ensures forall i :: 0 <= i < |createdAt| ==> createdAt[i] == old(env.now) + Elapsed(gaps, i) && createdAt[i] < duration
    ensures env.now == old(env.now) + Elapsed(gaps, |ids|)
    ensures |ids| < |gaps| ==> env.now >= duration
  {
    ids, createdAt := [], [];
    var pId := 0;
    while env.now < duration && pId < |gaps|
      invariant pId == |ids| == |createdAt| <= |gaps|
      invariant forall i :: 0 <= i < |ids| ==> ids[i] == i + 1
      invariant forall i :: 0 <= i < |createdAt| ==> createdAt[i] == old(env.now) + Elapsed(gaps, i) && createdAt[i] < duration
      invariant env.now == old(env.now) + Elapsed(gaps, pId)
      decreases |gaps| - pId
    {
      pId := pId + 1;
      ids := ids + [pId];
      createdAt := createdAt + [env.now];
      env.Timeout(gaps[pId - 1]);
    }
  }

  /** The parameters of `patient_generator`, none with a default. */
  const GeneratorParams: seq<string> := ["env", "staff_dict", "resources", "stats", "renderer", "duration"]

  /** Python's binding of a call to parameters without defaults: at most as
      many positional arguments as parameters, every keyword a parameter not
      already given positionally, and every remaining parameter given by
      keyword; anything else is a TypeError. */
  function BindCall(params: seq<string>, positional: nat, keywords: seq<string>): (r: Outcome)
    ensures r == Pass ==> positional <= |params| && forall k :: k in keywords ==> k in params[positional..]
    ensures r == Pass ==> forall i :: positional <= i < |params| ==> params[i] in keywords
    ensures r != Pass ==> r == Fail(TypeError)
  {
    if positional > |params| then Fail(TypeError)
    else if exists k :: k in keywords && k !in params[positional..] then Fail(TypeError)
    else if exists i :: positional <= i < |params| && params[i] !in keywords then Fail(TypeError)
    else Pass
  }

  /** The generator binds a call with all six arguments given positionally,
      and refuses one that adds a `patient_class` keyword. */
  lemma GeneratorBinding()
    ensures BindCall(GeneratorParams, 6, []) == Pass
    ensures BindCall(GeneratorParams, 6, ["patient_class"]) == Fail(TypeError)
  {
    assert "patient_class" in ["patient_class"];
  }
}
