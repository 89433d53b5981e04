/** The outpatient journey (src/core/workflows/patient.py): clinical
    initialisation, classification, registration, change-room selection,
    changing, the two waiting-room halves around the prep, the scan, the exit
    and the bed flip, with every resource and grid slot given back; and the
    arrival generator. The module-level position manager is an explicit
    `PositionManager` object. */
module OutpatientFlow {
  import opened Sim
  import opened HeadlessEntities
  import opened Tracker
  import opened Aggregator
  import opened Base
  import opened AdminDesk
  import opened PorterFlow
  import opened BackupFlow
  import opened ScannerFlow

  /** The clinical configuration: the protocol table and the probabilities. */
  datatype ClinicalConfig = ClinicalConfig(
    protocols: map<string, ScanParams>,
    probNeedsIv: real,
    probDifficultIv: real,
    probInpatient: real)

  /** The random outcomes of one journey: the protocol chosen, the uniform
      draws compared with the probabilities, the shuffled change-room order,
      the number of half-minute polls spent waiting in staging, and the sampled
      durations. */
  datatype Draws = Draws(
    protocol: string,
    ivDraw: real,
    difficultDraw: real,
    inpatientDraw: real,
    roomOrder: seq<string>,
    polls: nat,
    regDraw: real,
    changingDraw: real,
    ivPrepDraw: real,
    ivDifficultDraw: real,
    screeningDraw: real,
    setupDraw: real,
    triDraw: real,
    z: real,
    scanDraw: real,
    exitDraw: real,
    fastFlipDraw: real,
    slowFlipDraw: real)

  /** An IV is difficult only if it is needed (absent flags are false). */
  predicate IvConsistent(needsIv: Option<bool>, isDifficultIv: Option<bool>) {
    isDifficultIv.GetOr(false) ==> needsIv.GetOr(false)
  }

  /** A unit of resource `k` is free in the given counts and capacities. */
  predicate FreeIn(count: map<string, nat>, capacity: map<string, nat>, k: string) {
    k in count && k in capacity && count[k] < capacity[k]
  }

  /** A magnet configuration is waiting in the pool, and its own unit, the
      `magnet_access` unit and the porter are all free in the given counts. */
  ghost predicate MagnetReady(items: seq<MagnetConfig>, poolCapacity: nat, count: map<string, nat>,
                              capacity: map<string, nat>)
  {
    && 0 < |items| <= poolCapacity
    && items[0].resKey != "magnet_access" && items[0].resKey != "porter"
    && FreeIn(count, capacity, items[0].resKey) && FreeIn(count, capacity, "magnet_access")
    && FreeIn(count, capacity, "porter")
  }

  /** The index of the first room in `keys` with a free unit, if any. */
  function FirstFreeRoom(count: map<string, nat>, capacity: map<string, nat>, keys: seq<string>): (r: Option<nat>)
    ensures r.Some? ==> r.value < |keys| && FreeIn(count, capacity, keys[r.value])
    ensures r.Some? ==> forall j :: 0 <= j < r.value ==> !FreeIn(count, capacity, keys[j])
    ensures r.None? ==> forall j :: 0 <= j < |keys| ==> !FreeIn(count, capacity, keys[j])
  {
    FirstFreeRoomFrom(count, capacity, keys, 0)
  }

  function FirstFreeRoomFrom(count: map<string, nat>, capacity: map<string, nat>, keys: seq<string>, from: nat)
    : (r: Option<nat>)
    requires from <= |keys|
    ensures r.Some? ==> from <= r.value < |keys| && FreeIn(count, capacity, keys[r.value])
    ensures r.Some? ==> forall j :: from <= j < r.value ==> !FreeIn(count, capacity, keys[j])
    ensures r.None? ==> forall j :: from <= j < |keys| ==> !FreeIn(count, capacity, keys[j])
    decreases |keys| - from
  {
    if from == |keys| then None
    else if FreeIn(count, capacity, keys[from]) then Some(from)
    else FirstFreeRoomFrom(count, capacity, keys, from + 1)
  }

  /** The new states of a sequence of logged state changes, in order. */
  ghost function NewStates(calls: seq<StateChange>): (r: seq<PState>)
    ensures |r| == |calls|
    ensures forall i :: 0 <= i < |calls| ==> r[i] == calls[i].newState
  {
    if |calls| == 0 then [] else NewStates(calls[..|calls| - 1]) + [calls[|calls| - 1].newState]
  }

  lemma {:induction false} NewStatesAppend(a: seq<StateChange>, b: seq<StateChange>)
    ensures NewStates(a + b) == NewStates(a) + NewStates(b)
  {
    var l := NewStates(a + b);
    var r := NewStates(a) + NewStates(b);
    assert |l| == |r|;
    forall i | 0 <= i < |l|
      ensures l[i] == r[i]
    {
      if i < |a| { assert (a + b)[i] == a[i]; } else { assert (a + b)[i] == b[i - |a|]; }
    }
  }

  /** Whether a scan time drawn from any protocol parameters is a valid delay:
      the triangular draw and the default duration are, and the dictionary
      branch is at least five minutes. */
  lemma ScanTimeNonNegative(params: Option<ScanParams>, triDraw: real, z: real, defaultScan: real)
    requires triDraw >= 0.0 && defaultScan >= 0.0
    ensures ScanTime(params, triDraw, z, defaultScan) >= 0.0
  {
  }

  /** The exam handed to the bed flip as written: the patient never has an
      `exam_type` attribute, so it is always 'Unknown'. */
  function ExamAsWritten(p: Patient): (exam: string)
    ensures exam == "Unknown"
  {
    "Unknown"
  }

  /** The exam handed to the bed flip as intended: the patient's own scan
      protocol ('Unknown' only when none was chosen). */
  function ExamOf(p: Patient): (exam: string)
    reads p`scanProtocol
    ensures p.scanProtocol.Some? ==> exam == p.scanProtocol.value
    ensures p.scanProtocol.None? ==> exam == "Unknown"
  {
    p.scanProtocol.GetOr("Unknown")
  }

  /** As written, every flip after the first on a magnet is fast, whatever was
      scanned: consecutive exams are all 'Unknown'. So a magnet that scanned
      two different protocols in a row still gets the quick changeover. */
  lemma AsWrittenAlwaysQuickChangeover(n: nat, i: nat)
    requires 0 < i < n
    ensures FlipKinds(None, seq(n, _ => "Unknown"))[i] == Fast
  {
    FlipKindsSpec(None, seq(n, _ => "Unknown"), i);
  }

  /** With the intended exam, two different protocols in a row give the slow
      flip and the same protocol twice gives the fast one. */
  lemma IntendedChangeoverFollowsProtocols(protocols: seq<string>, i: nat)
    requires 0 < i < |protocols|
    ensures FlipKinds(None, protocols)[i] == Fast <==> protocols[i - 1] == protocols[i]
  {
    FlipKindsSpec(None, protocols, i);
  }

  /** Every duration a journey waits is a valid delay (SimPy refuses a
      negative timeout); the handover must be a plain number. */
  predicate DelaysOk(processTimes: map<string, TimeParams>, d: Draws) {
    && GetTime(processTimes, "registration", d.regDraw) >= 0.0
    && GetTime(processTimes, "changing", d.changingDraw) >= 0.0
    && GetTime(processTimes, "iv_prep", d.ivPrepDraw) >= 0.0
    && GetTime(processTimes, "iv_difficult", d.ivDifficultDraw) >= 0.0
    && GetTime(processTimes, "screening", d.screeningDraw) >= 0.0
    && HandoverTime(processTimes).Some? && HandoverTime(processTimes).value >= 0.0
    && GetTime(processTimes, "scan_setup", d.setupDraw) >= 0.0
    && GetTime(processTimes, "scan_duration", d.scanDraw) >= 0.0 && d.triDraw >= 0.0
    && GetTime(processTimes, "scan_exit", d.exitDraw) >= 0.0
    && GetTime(processTimes, "bed_flip_fast", d.fastFlipDraw) >= 0.0
    && GetTime(processTimes, "bed_flip_slow", d.slowFlipDraw) >= 0.0
  }

  /** How one journey ends in the sequential model: an inpatient is skipped
      after classification, an outpatient either waits in staging for a
      room that no one else frees, or completes, with the bed-flip duration
      its turnover took. */
  datatype Outcome = SkippedInpatient | WaitingInStaging | Completed(flip: real)

  /** The generator's stopping rule: stop once past the last hour of the
      run with nobody left in the system. */
  predicate GeneratorStops(now: real, duration: real, patientsInSystem: nat) {
    now > duration - 60.0 && patientsInSystem == 0
  }

  /** The outpatient journey and the objects it shares with the other
      workflows. */
  class PatientWorkflow {
    const env: Env
    const res: ResourceTable
    const stats: MetricAggregator
    const pos: PositionManager
    const pool: MagnetPool
    const admin: AdminWorkflow
    const porter: PorterWorkflow
    const backup: BackupWorkflow
    const scanner: ScanWorkflow
    const agentPositions: map<string, Pos>
    const processTimes: map<string, TimeParams>
    const cfg: ClinicalConfig
    const priorityOutpatient: int
    /** The `gap_mode_active` entry of the resources table, absent in a
        headless run. */
    const gapMode: Option<bool>

    /** The sub-workflows share this workflow's clock, resources and
        statistics (the admin desk and backup log into the base counters). */
    ghost predicate Wired() {
      && admin.env == env && admin.res == res && admin.stats == stats.base
      && porter.env == env && porter.res == res && porter.stats == stats
      && backup.env == env && backup.res == res && backup.stats == stats.base
      && scanner.env == env && scanner.stats == stats
      && scanner.processTimes == processTimes
    }

    /** The scan's staffing and layout: a scan technologist exists, the exit
        is on the map and the porter has a home to return to. */
    ghost predicate ScanStaffed() {
      |scanner.scanTechs| > 0 && "exit" in agentPositions && porter.porter.body.home.Some?
    }

    /** Both statistics objects keep their invariants. */
    ghost predicate Accounted()
      reads stats`magnetMetrics, stats`metricCalls, stats`counts, stats`finished, stats`patientData
      reads stats.base`magnetBusyTime, stats.base`magnetOccupiedTime, stats.base`magnetStart, stats.base`magnetState
    {
      stats.Valid() && stats.base.Valid()
    }

    /** The state the scan reads and the prep leaves alone: the magnet pool,
        the magnets' last exams, the in-system count, the patient's protocol
        parameters and the fields the statistics invariants are stated on.
        Equal snapshots before and after a step say that step left all of it
        as it was. */
    ghost function ScanInputs(p: Patient): (seq<MagnetConfig>, map<string, Option<string>>, int, Option<ScanParams>,
                                          (MagnetTime, seq<MetricCall>, Counts, seq<int>, map<int, PatientRecord>),
                                          (real, real, Option<real>, MagnetPhase))
      reads pool`items, res`lastExamType, stats.base`patientsInSystem, p`scanParams
      reads stats`magnetMetrics, stats`metricCalls, stats`counts, stats`finished, stats`patientData
      reads stats.base`magnetBusyTime, stats.base`magnetOccupiedTime, stats.base`magnetStart, stats.base`magnetState
    {
      (pool.items, res.lastExamType, stats.base.patientsInSystem, p.scanParams,
       (stats.magnetMetrics, stats.metricCalls, stats.counts, stats.finished, stats.patientData),
       (stats.base.magnetBusyTime, stats.base.magnetOccupiedTime, stats.base.magnetStart, stats.base.magnetState))
    }

    /** The durations the scan waits, for a patient with the given protocol
        parameters, are valid delays. */
    ghost predicate ScanTimesOk(params: Option<ScanParams>, d: Draws) {
      && HandoverTime(processTimes).Some? && HandoverTime(processTimes).value >= 0.0
      && GetTime(processTimes, "scan_setup", d.setupDraw) >= 0.0
      && GetTime(processTimes, "scan_exit", d.exitDraw) >= 0.0
      && ScanTime(params, d.triDraw, d.z, GetTime(processTimes, "scan_duration", d.scanDraw)) >= 0.0
    }

    constructor (env: Env, res: ResourceTable, stats: MetricAggregator, pos: PositionManager, pool: MagnetPool,
                 admin: AdminWorkflow, porter: PorterWorkflow, backup: BackupWorkflow, scanner: ScanWorkflow,
                 agentPositions: map<string, Pos>, processTimes: map<string, TimeParams>, cfg: ClinicalConfig,
                 priorityOutpatient: int, gapMode: Option<bool>)
      ensures this.env == env && this.res == res && this.stats == stats && this.pos == pos && this.pool == pool
      ensures this.admin == admin && this.porter == porter && this.backup == backup && this.scanner == scanner
      ensures this.agentPositions == agentPositions && this.processTimes == processTimes && this.cfg == cfg
      ensures this.priorityOutpatient == priorityOutpatient && this.gapMode == gapMode
    {
      this.env := env;
      this.res := res;
      this.stats := stats;
      this.pos := pos;
      this.pool := pool;
      this.admin := admin;
      this.porter := porter;
      this.backup := backup;
      this.scanner := scanner;
      this.agentPositions := agentPositions;
      this.processTimes := processTimes;
      this.cfg := cfg;
      this.priorityOutpatient := priorityOutpatient;
      this.gapMode := gapMode;
    }

    /** Clinical initialisation: done at most once per patient. The first
        time, the protocol and its parameters are set, the IV need is drawn,
        and a difficult IV is drawn only for a needed IV. */
    method ClinicalInit(p: Patient, d: Draws)
      requires !p.clinicalInitDone ==> d.protocol in cfg.protocols
      modifies p`scanProtocol, p`scanParams, p`needsIv, p`isDifficultIv, p`clinicalInitDone
      ensures p.clinicalInitDone
      ensures old(p.clinicalInitDone) ==>
                && p.scanProtocol == old(p.scanProtocol) && p.scanParams == old(p.scanParams)
                && p.needsIv == old(p.needsIv) && p.isDifficultIv == old(p.isDifficultIv)
      ensures !old(p.clinicalInitDone) ==>
                && p.scanProtocol == Some(d.protocol)
                && p.scanParams == Some(cfg.protocols[d.protocol])
                && p.needsIv == Some(d.ivDraw < cfg.probNeedsIv)
                && p.isDifficultIv == Some(d.ivDraw < cfg.probNeedsIv && d.difficultDraw < cfg.probDifficultIv)
                && IvConsistent(p.needsIv, p.isDifficultIv)
    {
      if !p.clinicalInitDone {
        p.scanProtocol := Some(d.protocol);
        p.scanParams := Some(cfg.protocols[d.protocol]);
        var needs := d.ivDraw < cfg.probNeedsIv;
        p.needsIv := Some(needs);
        p.isDifficultIv := Some(if needs then d.difficultDraw < cfg.probDifficultIv else false);
        p.clinicalInitDone := true;
      }
    }

    /** The start of `run`: a late patient waits out the lateness, clinical
        initialisation runs, and the patient is classified; an inpatient stops
        here without touching any resource, an outpatient gets its arrival
        time. */
    method Arrive(p: Patient, d: Draws) returns (inpatient: bool)
      requires !p.clinicalInitDone ==> d.protocol in cfg.protocols
      modifies env, p`scanProtocol, p`scanParams, p`needsIv, p`isDifficultIv, p`clinicalInitDone, p`arrivalTime
      ensures p.clinicalInitDone
      ensures inpatient == old(p.isInpatient).GetOr(d.inpatientDraw < cfg.probInpatient)
      ensures env.now == old(env.now) + (if p.isLate && p.lateDuration > 0.0 then p.lateDuration else 0.0)
      ensures inpatient ==> p.arrivalTime == old(p.arrivalTime)
      ensures !inpatient ==> p.arrivalTime == Some(env.now)
      ensures old(p.clinicalInitDone) ==> p.scanProtocol == old(p.scanProtocol) && p.needsIv == old(p.needsIv)
      ensures !old(p.clinicalInitDone) ==> p.scanProtocol == Some(d.protocol)
      ensures !old(p.clinicalInitDone) ==> IvConsistent(p.needsIv, p.isDifficultIv)
    {
      if p.isLate && p.lateDuration > 0.0 {
        env.Timeout(p.lateDuration);
      }
      ClinicalInit(p, d);
      inpatient := p.isInpatient.GetOr(d.inpatientDraw < cfg.probInpatient);
      if inpatient {
        return;
      }
      p.arrivalTime := Some(env.now);
    }

    /** The first pass over the rooms: the first room in the given order with
        a free unit is requested and held; with none free nothing changes. */
    method SelectChangeRoom(keys: seq<string>) returns (room: Option<string>)
      requires res.Valid() && forall i :: 0 <= i < |keys| ==> keys[i] in res.count
      modifies res`count, res`events
      ensures res.Valid() && res.lastExamType == old(res.lastExamType)
      ensures old(FirstFreeRoom(res.count, res.capacity, keys)).None? ==> room == None && res.count == old(res.count) && res.events == old(res.events)
      ensures old(FirstFreeRoom(res.count, res.capacity, keys)).Some? ==>
                var k := keys[old(FirstFreeRoom(res.count, res.capacity, keys)).value];
                && room == Some(k)
                && res.count == old(res.count)[k := old(res.count)[k] + 1]
                && res.events == old(res.events) + [Acquired(k, None)]
    {
      room := None;
      var i := 0;
      while i < |keys|
        invariant 0 <= i <= |keys|
        invariant res.count == old(res.count) && res.events == old(res.events)
        invariant FirstFreeRoomFrom(res.count, res.capacity, keys, 0) == FirstFreeRoomFrom(res.count, res.capacity, keys, i)
      {
        if res.Free(keys[i]) {
          room := Some(keys[i]);
          res.Acquire(keys[i], None);
          return;
        }
        i := i + 1;
      }
    }

    /** The staging wait: the rooms are tried again every half minute, for
        at most `polls` tries. Within one sequential journey no other patient
        frees a room, so the result of every try is the first try's. */
    method WaitForRoom(keys: seq<string>, polls: nat) returns (room: Option<string>)
      requires res.Valid() && forall i :: 0 <= i < |keys| ==> keys[i] in res.count
      modifies res`count, res`events, env
      ensures res.Valid() && res.lastExamType == old(res.lastExamType)
      ensures polls == 0 ==> room == None && res.count == old(res.count) && env.now == old(env.now)
      ensures room.None? ==> res.count == old(res.count) && res.events == old(res.events)
      ensures room.None? ==> env.now == old(env.now) + 0.5 * polls as real
      ensures room.Some? ==> room.value in keys
      ensures old(FirstFreeRoom(res.count, res.capacity, keys)).None? ==> room.None?
      ensures polls > 0 && old(FirstFreeRoom(res.count, res.capacity, keys)).Some? ==>
                var k := keys[old(FirstFreeRoom(res.count, res.capacity, keys)).value];
                && room == Some(k) && env.now == old(env.now)
                && res.count == old(res.count)[k := old(res.count)[k] + 1]
                && res.events == old(res.events) + [Acquired(k, None)]
    {
      room := None;
      var tries := 0;
      while room.None? && tries < polls
        invariant 0 <= tries <= polls
        invariant tries == 0 ==> room.None?
        invariant room.Some? ==> room.value in keys
        invariant room.None? ==> res.count == old(res.count) && res.events == old(res.events)
        invariant room.None? ==> env.now == old(env.now) + 0.5 * tries as real
        invariant res.Valid() && res.lastExamType == old(res.lastExamType)
        invariant old(FirstFreeRoom(res.count, res.capacity, keys)).Some? && tries > 0 ==>
                    var k := keys[old(FirstFreeRoom(res.count, res.capacity, keys)).value];
                    && room == Some(k) && env.now == old(env.now)
                    && res.count == old(res.count)[k := old(res.count)[k] + 1]
                    && res.events == old(res.events) + [Acquired(k, None)]
        invariant old(FirstFreeRoom(res.count, res.capacity, keys)).None? ==> room.None?
        decreases polls - tries
      {
        room := SelectChangeRoom(keys);
        if room.None? {
          env.Timeout(0.5);
        }
        tries := tries + 1;
      }
    }

    /** The movement is logged and the porter escorts the patient to the
        centre of the held room, or to staging when none is held. */
    method EscortToRoom(p: Patient, room: Option<string>)
      requires porter.res == res && res.Valid() && res.Free("porter") && stats.base.Valid()
      requires p.body != porter.porter.body && porter.porter.body.home.Some?
      requires room.Some? ==> room.value + "_center" in agentPositions
      requires "change_staging" in agentPositions
      modifies res`count, res`events, stats.base`patientLog, p.body, porter.porter, porter.porter.body
      ensures res.Valid() && res.count == old(res.count) && stats.base.Valid()
      ensures res.events == old(res.events) + [Acquired("porter", Some(TransportPriority)), Released("porter")]
      ensures var target := if room.Some? then agentPositions[room.value + "_center"] else agentPositions["change_staging"];
              p.body.x == target.x && p.body.y == target.y
      ensures stats.base.patientLog == if env.now < stats.base.warmUp then old(stats.base.patientLog)
                else old(stats.base.patientLog)
                     + [Movement(p.pId, if room.Some? then "change_room" else "change_staging", env.now - stats.base.warmUp)]
    {
      var target: Pos;
      if room.Some? {
        target := agentPositions[room.value + "_center"];
        stats.base.LogMovement(p.pId, "change_room", env.now);
      } else {
        target := agentPositions["change_staging"];
        stats.base.LogMovement(p.pId, "change_staging", env.now);
      }
      porter.Transport(p, At(target));
    }

    /** The escort to the changing area: the first free room in the
        shuffled order is held and the porter escorts the patient to it, or,
        with none free, to staging, where the rooms are tried again. Only
        another patient's release can end that wait, and none happens within
        one sequential journey: `None` means the patient is left waiting in
        staging. */
    method GoToChangeRoom(p: Patient, d: Draws) returns (room: Option<string>)
      requires porter.res == res && porter.env == env && res.Valid() && res.Free("porter")
      requires p.body != porter.porter.body && porter.porter.body.home.Some?
      requires forall i :: 0 <= i < |d.roomOrder| ==> d.roomOrder[i] in res.count && d.roomOrder[i] != "porter"
      requires forall i :: 0 <= i < |d.roomOrder| ==> d.roomOrder[i] + "_center" in agentPositions
      requires "change_staging" in agentPositions
      requires stats.base.Valid()
      modifies res`count, res`events, env, stats.base`patientLog, p.body, porter.porter, porter.porter.body
      ensures res.Valid() && res.lastExamType == old(res.lastExamType) && stats.base.Valid()
      ensures room.Some? ==> room.value in res.count && res.count[room.value] > 0
      ensures room.Some? <==> old(FirstFreeRoom(res.count, res.capacity, d.roomOrder)).Some?
      ensures room.None? ==> res.count == old(res.count)
      ensures room.Some? ==> env.now == old(env.now)
      ensures room.Some? ==>
                && room.value == d.roomOrder[old(FirstFreeRoom(res.count, res.capacity, d.roomOrder)).value]
                && res.count == old(res.count)[room.value := old(res.count)[room.value] + 1]
    {
      room := SelectChangeRoom(d.roomOrder);
      EscortToRoom(p, room);
      if room.None? {
        room := WaitForRoom(d.roomOrder, d.polls);
      }
    }

    /** Changing in the held room: the patient is logged registered →
        changing, changes, and gives the room back. */
    method Change(p: Patient, room: string, d: Draws)
      requires res.Valid() && room in res.count && res.count[room] > 0 && stats.base.Valid()
      requires GetTime(processTimes, "changing", d.changingDraw) >= 0.0
      modifies p`state, res`count, res`events, env, stats.base`patientsArrived, stats.base`patientsInSystem,
               stats.base`stateChanges, stats.base`stateCalls
      ensures res.Valid() && stats.base.Valid() && res.lastExamType == old(res.lastExamType)
      ensures res.count == old(res.count)[room := old(res.count)[room] - 1]
      ensures res.events == old(res.events) + [Released(room)]
      ensures p.state == Some(Changing)
      ensures stats.base.stateCalls == old(stats.base.stateCalls) + [StateChange(p.pId, Some(Registered), Changing, old(env.now))]
      ensures stats.base.patientsInSystem == old(stats.base.patientsInSystem)
      ensures env.now == old(env.now) + GetTime(processTimes, "changing", d.changingDraw)
    {
      p.SetState(Changing);
      stats.base.LogStateChange(p.pId, Some(Registered), Changing, env.now);
      env.Timeout(GetTime(processTimes, "changing", d.changingDraw));
      res.Release(room);
    }

    /** The state the back half of the journey starts from and the front
        half leaves alone: the magnet pool, the waiting-room grid, the
        patient's protocol and the statistics fields the scan's invariants
        are stated on. */
    ghost function BackInputs(p: Patient): (seq<MagnetConfig>, map<Area, map<int, int>>, Option<string>, Option<ScanParams>,
                                           (MagnetTime, seq<MetricCall>, Counts, seq<int>, map<int, PatientRecord>))
      reads pool`items, pos`occupancy, p`scanProtocol, p`scanParams
      reads stats`magnetMetrics, stats`metricCalls, stats`counts, stats`finished, stats`patientData
    {
      (pool.items, pos.occupancy, p.scanProtocol, p.scanParams,
       (stats.magnetMetrics, stats.metricCalls, stats.counts, stats.finished, stats.patientData))
    }

    /** The escort and, once a room is held, the changing; the room is
        given back. */
    method EscortAndChange(p: Patient, d: Draws, ghost start: real) returns (room: Option<string>)
      requires porter.res == res && porter.env == env && res.Valid() && stats.base.Valid() && res.Free("porter")
      requires p.body != porter.porter.body && porter.porter.body.home.Some?
      requires forall i :: 0 <= i < |d.roomOrder| ==> d.roomOrder[i] in res.count && d.roomOrder[i] != "porter"
      requires forall i :: 0 <= i < |d.roomOrder| ==> d.roomOrder[i] + "_center" in agentPositions
      requires "change_staging" in agentPositions
      requires GetTime(processTimes, "changing", d.changingDraw) >= 0.0
      requires pos.Valid() && Accounted() && env.now == start
      modifies p`state, res`count, res`events, env, p.body, porter.porter, porter.porter.body
      modifies stats.base`patientLog, stats.base`patientsArrived, stats.base`patientsInSystem,
               stats.base`stateChanges, stats.base`stateCalls
      ensures pos.Valid() && Accounted() && BackInputs(p) == old(BackInputs(p))
      ensures res.Valid() && stats.base.Valid() && res.lastExamType == old(res.lastExamType)
      ensures res.count == old(res.count)
      ensures room.Some? <==> old(FirstFreeRoom(res.count, res.capacity, d.roomOrder)).Some?
      ensures room.Some? ==> room.value == d.roomOrder[old(FirstFreeRoom(res.count, res.capacity, d.roomOrder)).value]
      ensures room.Some? ==> p.state == Some(Changing)
      ensures room.None? ==> stats.base.stateCalls == old(stats.base.stateCalls)
      ensures room.Some? ==> stats.base.stateCalls == old(stats.base.stateCalls)
                                                      + [StateChange(p.pId, Some(Registered), Changing, start)]
      ensures stats.base.patientsInSystem == old(stats.base.patientsInSystem)
    {
      ghost var calls0 := stats.base.stateCalls;
      ghost var inSystem0 := stats.base.patientsInSystem;
      ghost var back0 := BackInputs(p);
      room := GoToChangeRoom(p, d);
      assert stats.base.stateCalls == calls0 && stats.base.patientsInSystem == inSystem0;
      assert BackInputs(p) == back0 && pos.Valid() && Accounted();
      if room.Some? {
        ghost var c0 := old(res.count);
        assert room.value in c0 && MapGet(c0, room.value, 0) == c0[room.value];
        assert res.count == Plus(c0, room.value);
        Change(p, room.value, d);
        PlusThenMinus(c0, room.value);
        assert BackInputs(p) == back0 && pos.Valid() && Accounted();
      }
    }

    /** Registration at the desk, seen from the rest of the journey: the
        desk unit is given back, the patient is logged arriving and
        registered and counted in the system, the clock moves on by the
        registration time, and the back half's inputs are untouched. */
    method Registration(p: Patient, regTime: real)
      requires Wired() && res.Valid() && admin.desk.Valid() && pos.Valid() && Accounted()
      requires res.Free("admin_ta") && regTime >= 0.0 && p.body !in admin.desk.Bodies()
      modifies p`state, res, env, stats.base, admin.desk`queue, admin.desk.Bodies(), p.body
      ensures pos.Valid() && Accounted() && BackInputs(p) == old(BackInputs(p))
      ensures res.Valid() && admin.desk.Valid()
      ensures res.count == old(res.count) && res.lastExamType == old(res.lastExamType)
      ensures stats.base.stateCalls == old(stats.base.stateCalls) + [StateChange(p.pId, None, Arriving, old(env.now)),
                                                                   StateChange(p.pId, Some(Arriving), Registered, old(env.now))]
      ensures stats.base.patientsInSystem == old(stats.base.patientsInSystem) + 1
      ensures env.now == old(env.now) + regTime
    {
      var ok := admin.PerformRegistration(p, regTime);
    }

    /** Registration, the escort and the changing: every unit held is given
        back, and the patient is logged arriving and registered and, once a
        room is found, changing. `None` means the patient is left waiting in
        staging. */
    method RegisterAndChange(p: Patient, d: Draws, regTime: real) returns (room: Option<string>, ghost changedAt: real)
      requires Wired() && res.Valid() && stats.base.Valid() && admin.desk.Valid()
      requires res.Free("admin_ta") && res.Free("porter") && regTime >= 0.0
      requires p.body !in admin.desk.Bodies()
      requires p.body != porter.porter.body && porter.porter.body.home.Some?
      requires forall i :: 0 <= i < |d.roomOrder| ==> d.roomOrder[i] in res.count && d.roomOrder[i] != "porter"
      requires forall i :: 0 <= i < |d.roomOrder| ==> d.roomOrder[i] + "_center" in agentPositions
      requires "change_staging" in agentPositions
      requires GetTime(processTimes, "changing", d.changingDraw) >= 0.0
      requires pos.Valid() && Accounted()
      modifies p`state, res, env, stats.base, admin.desk`queue, admin.desk.Bodies(), p.body
      modifies porter.porter, porter.porter.body
      ensures pos.Valid() && Accounted() && BackInputs(p) == old(BackInputs(p))
      ensures res.Valid() && stats.base.Valid()
      ensures res.count == old(res.count) && res.lastExamType == old(res.lastExamType)
      ensures room.Some? <==> old(FirstFreeRoom(res.count, res.capacity, d.roomOrder)).Some?
      ensures room.Some? ==> room.value == d.roomOrder[old(FirstFreeRoom(res.count, res.capacity, d.roomOrder)).value]
      ensures room.Some? ==> p.state == Some(Changing)
      ensures var registration := [StateChange(p.pId, None, Arriving, old(env.now)),
                                   StateChange(p.pId, Some(Arriving), Registered, old(env.now))];
              && (room.None? ==> stats.base.stateCalls == old(stats.base.stateCalls) + registration)
              && (room.Some? ==> stats.base.stateCalls == old(stats.base.stateCalls) + registration
                                                          + [StateChange(p.pId, Some(Registered), Changing, changedAt)])
      ensures changedAt == old(env.now) + regTime
      ensures stats.base.patientsInSystem == old(stats.base.patientsInSystem) + 1
    {
      ghost var free0 := FirstFreeRoom(res.count, res.capacity, d.roomOrder);
      ghost var registered := stats.base.stateCalls + [StateChange(p.pId, None, Arriving, env.now),
                                                       StateChange(p.pId, Some(Arriving), Registered, env.now)];
      changedAt := env.now + regTime;
      Registration(p, regTime);
      assert FirstFreeRoom(res.count, res.capacity, d.roomOrder) == free0;
      assert stats.base.stateCalls == registered && env.now == changedAt;
      room := EscortAndChange(p, d, changedAt);
    }

    /** The patient takes the first free slot of a waiting-room half, walks
        to it, and is logged in the waiting room. */
    method TakeSlot(p: Patient, area: Area) returns (slot: nat)
      requires pos.Valid()
      modifies pos`occupancy, p.body, stats.base`patientLog
      ensures pos.Valid() && ScanInputs(p) == old(ScanInputs(p))
      ensures slot == FirstFree(old(pos.occupancy)[area]) && slot !in old(pos.occupancy)[area]
      ensures pos.occupancy == old(pos.occupancy)[area := old(pos.occupancy)[area][slot := p.pId]]
      ensures var at := SlotPosition(area, GridOf(area, pos.zone1, pos.waitingRoom), slot);
              p.body.x == at.x && p.body.y == at.y
      ensures stats.base.patientLog == if env.now < stats.base.warmUp then old(stats.base.patientLog)
                else old(stats.base.patientLog) + [Movement(p.pId, "waiting_room", env.now - stats.base.warmUp)]
    {
      var at;
      at, slot := pos.GetGridPos(area, p.pId);
      p.body.MoveToPoint(at);
      stats.base.LogMovement(p.pId, "waiting_room", env.now);
    }

    /** After the prep: the left slot is given back and the patient takes
        the first free slot of the right half. */
    method MoveRight(p: Patient, leftSlot: nat) returns (rightSlot: nat)
      requires pos.Valid()
      modifies pos`occupancy, p.body, stats.base`patientLog
      ensures pos.Valid() && ScanInputs(p) == old(ScanInputs(p))
      ensures rightSlot == FirstFree(old(pos.occupancy)[WaitingRoomRight])
      ensures pos.occupancy == old(pos.occupancy)[WaitingRoomLeft := old(pos.occupancy)[WaitingRoomLeft] - {leftSlot}]
                [WaitingRoomRight := old(pos.occupancy)[WaitingRoomRight][rightSlot := p.pId]]
      ensures var at := SlotPosition(WaitingRoomRight, GridOf(WaitingRoomRight, pos.zone1, pos.waitingRoom), rightSlot);
              p.body.x == at.x && p.body.y == at.y
    {
      pos.ReleasePos(WaitingRoomLeft, leftSlot);
      rightSlot := TakeSlot(p, WaitingRoomRight);
    }

    /** The prep itself, by the backup workflow: the waiting-room layout and
        everything the scan relies on are left as they were. */
    method PrepInRoom(p: Patient, ivPrep: real, ivDifficult: real, screening: real)
      requires Wired() && backup.Valid() && res.Valid() && res.Free("backup_techs")
      requires ivPrep >= 0.0 && ivDifficult >= 0.0 && screening >= 0.0
      requires forall i :: 0 <= i < |backup.techs| ==> backup.techs[i].body != p.body
      modifies p.body, stats.base`patientLog, res`count, res`events, env, p`state, p`hasIv
      modifies backup.Techs, backup.TechBodies
      ensures res.Valid() && res.count == old(res.count)
      ensures pos.occupancy == old(pos.occupancy) && ScanInputs(p) == old(ScanInputs(p))
      ensures res.events == old(res.events)
                            + [Acquired("backup_techs", Some(PrepPriority(gapMode, old(IsSimple(p))))), Released("backup_techs")]
      ensures p.state == Some(Prepped) && p.hasIv == (old(p.hasIv) || p.needsIv.GetOr(false))
      ensures env.now == old(env.now) + IvTime(p.needsIv.GetOr(false), p.isDifficultIv.GetOr(false), ivPrep, ivDifficult)
                         + screening
    {
      var chosen := backup.PrepPatient(p, gapMode, ivPrep, ivDifficult, screening);
    }

    /** Steps 5 to 7 of the journey: the left half of the waiting room, the
        prep by the first idle backup technologist, then the right half. The
        left slot is given back, so the only slot still held is the right one,
        the first free there; the backup unit is given back. */
    method PrepPhase(p: Patient, ivPrep: real, ivDifficult: real, screening: real) returns (rightSlot: nat)
      requires Wired() && pos.Valid() && backup.Valid() && res.Valid() && res.Free("backup_techs")
      requires ivPrep >= 0.0 && ivDifficult >= 0.0 && screening >= 0.0
      requires forall i :: 0 <= i < |backup.techs| ==> backup.techs[i].body != p.body
      modifies pos`occupancy, p.body, stats.base`patientLog, res`count, res`events, env, p`state, p`hasIv
      modifies backup.Techs, backup.TechBodies
      ensures pos.Valid() && res.Valid() && res.count == old(res.count) && ScanInputs(p) == old(ScanInputs(p))
      ensures rightSlot == FirstFree(old(pos.occupancy)[WaitingRoomRight])
      ensures pos.occupancy == old(pos.occupancy)[WaitingRoomRight := old(pos.occupancy)[WaitingRoomRight][rightSlot := p.pId]]
      ensures res.events == old(res.events)
                            + [Acquired("backup_techs", Some(PrepPriority(gapMode, old(IsSimple(p))))), Released("backup_techs")]
      ensures p.state == Some(Prepped) && p.hasIv == (old(p.hasIv) || p.needsIv.GetOr(false))
      ensures env.now == old(env.now) + IvTime(p.needsIv.GetOr(false), p.isDifficultIv.GetOr(false), ivPrep, ivDifficult)
                         + screening
    {
      var leftSlot := TakeSlot(p, WaitingRoomLeft);
      PrepInRoom(p, ivPrep, ivDifficult, screening);
      rightSlot := MoveRight(p, leftSlot);
      TakeThenRelease(old(pos.occupancy), WaitingRoomLeft, leftSlot, p.pId);
    }

    /** The magnet is seized: the `magnet_access` unit, then the first
        magnet configuration of the pool, then that magnet's own unit, both at
        the outpatient priority. */
    method SeizeMagnet() returns (magnet: MagnetConfig)
      requires res.Valid() && res.Free("magnet_access") && |pool.items| > 0
      requires pool.items[0].resKey != "magnet_access" && res.Free(pool.items[0].resKey)
      modifies res`count, res`events, pool
      ensures res.Valid() && res.lastExamType == old(res.lastExamType)
      ensures magnet == old(pool.items[0]) && pool.items == old(pool.items[1..])
      ensures res.count == old(res.count)["magnet_access" := old(res.count)["magnet_access"] + 1]
                                         [magnet.resKey := old(res.count)[magnet.resKey] + 1]
      ensures res.events == old(res.events) + [Acquired("magnet_access", Some(priorityOutpatient)),
                                               Acquired(magnet.resKey, Some(priorityOutpatient))]
    {
      res.Acquire("magnet_access", Some(priorityOutpatient));
      magnet := pool.Get();
      res.Acquire(magnet.resKey, Some(priorityOutpatient));
    }

    /** The right slot is given back and the patient walks into the magnet
        room, logged under the magnet's name. */
    method GoToMagnet(p: Patient, magnet: MagnetConfig, rightSlot: nat)
      requires pos.Valid()
      modifies pos`occupancy, p.body, stats.base`patientLog
      ensures pos.Valid()
      ensures pos.occupancy == old(pos.occupancy)[WaitingRoomRight := old(pos.occupancy)[WaitingRoomRight] - {rightSlot}]
      ensures p.body.x == magnet.loc.x && p.body.y == magnet.loc.y
      ensures stats.base.patientLog == if env.now < stats.base.warmUp then old(stats.base.patientLog)
                else old(stats.base.patientLog) + [Movement(p.pId, magnet.name, env.now - stats.base.warmUp)]
    {
      pos.ReleasePos(WaitingRoomRight, rightSlot);
      p.body.MoveToPoint(magnet.loc);
      stats.base.LogMovement(p.pId, magnet.name, env.now);
    }

    /** The exit process: the patient walks to the exit and is recorded as
        finished (only after the warm-up). */
    method ExitPatient(p: Patient)
      requires stats.Valid() && "exit" in agentPositions
      modifies p.body, stats`patientData, stats`scanCounts, stats`counts, stats`finished
      ensures stats.Valid()
      ensures p.body.x == agentPositions["exit"].x && p.body.y == agentPositions["exit"].y
      ensures stats.finished == old(stats.finished) + (if env.now < stats.base.warmUp then [] else [p.pId])
      ensures stats.magnetMetrics == old(stats.magnetMetrics) && stats.metricCalls == old(stats.metricCalls)
      ensures stats.counts.noShow == old(stats.counts.noShow)
    {
      p.body.MoveToPoint(agentPositions["exit"]);
      stats.LogPatientFinished(p, env.now);
    }

    /** The magnet is given back: its own unit, the `magnet_access` unit, and
        the configuration to the tail of the pool. `before` is the counts
        before the magnet was seized, and they are restored. */
    method FreeMagnet(magnet: MagnetConfig, ghost before: map<string, nat>)
      requires res.Valid() && magnet.resKey != "magnet_access" && "magnet_access" in before && magnet.resKey in before
      requires res.count == before["magnet_access" := before["magnet_access"] + 1][magnet.resKey := before[magnet.resKey] + 1]
      requires |pool.items| < pool.capacity
      modifies res`count, res`events, pool
      ensures res.Valid() && res.lastExamType == old(res.lastExamType)
      ensures res.count == before
      ensures res.events == old(res.events) + [Released(magnet.resKey), Released("magnet_access")]
      ensures pool.items == old(pool.items) + [magnet]
    {
      ghost var held := res.count;
      res.Release(magnet.resKey);
      res.Release("magnet_access");
      pool.Put(magnet);
      TakeTwoThenRelease(before, held, res.count, "magnet_access", magnet.resKey);
    }

    /** The scan, then the exit (at the scan's end time), logged as finished. */
    method ScanThenExit(p: Patient, magnet: MagnetConfig, d: Draws) returns (scan: real)
      requires Wired() && ScanStaffed() && ScanTimesOk(p.scanParams, d) && stats.Valid() && stats.base.Valid()
      modifies scanner.scanTechs[ScanTechIndex(magnet.id, |scanner.scanTechs|)], env, magnet, p`state, p`scanDuration, p.body
      modifies stats`counts, stats`magnetMetrics, stats`metricCalls, stats`patientData, stats`scanCounts, stats`finished
      modifies stats.base`patientsArrived, stats.base`patientsInSystem, stats.base`stateChanges, stats.base`stateCalls
      modifies stats.base`magnetStart, stats.base`magnetState, stats.base`magnetBusyTime, stats.base`magnetOccupiedTime
      ensures stats.Valid() && stats.base.Valid()
      ensures scan == ScanTime(p.scanParams, d.triDraw, d.z, GetTime(processTimes, "scan_duration", d.scanDraw))
      ensures p.state == Some(Scanning) && p.scanDuration == Some(scan)
      ensures var handover := HandoverTime(processTimes).value;
              var setup := GetTime(processTimes, "scan_setup", d.setupDraw);
              var exit := GetTime(processTimes, "scan_exit", d.exitDraw);
              && stats.base.stateCalls == old(stats.base.stateCalls)
                                          + [StateChange(p.pId, Some(Prepped), Scanning, old(env.now) + handover)]
              && stats.metricCalls == old(stats.metricCalls)
                                      + [MetricCall(magnet.id, "handover", handover), MetricCall(magnet.id, "setup", setup),
                                         MetricCall(magnet.id, "scan", scan), MetricCall(magnet.id, "exit", exit)]
              && env.now == old(env.now) + handover + setup + scan + exit
      ensures stats.finished == old(stats.finished) + (if env.now < stats.base.warmUp then [] else [p.pId])
      ensures stats.base.patientsInSystem == old(stats.base.patientsInSystem)
      ensures magnet.visualTrace == old(magnet.visualTrace) + [Busy, Dirty]
      ensures p.body.x == agentPositions["exit"].x && p.body.y == agentPositions["exit"].y
    {
      var tech;
      tech, scan := scanner.ExecuteScan(p, magnet, d.setupDraw, d.triDraw, d.z, d.scanDraw, d.exitDraw);
      ExitPatient(p);
    }

    /** In the magnet room: the right slot is given back, the patient walks
        in, is scanned and walks out to the exit. No resource is touched. */
    method InRoom(p: Patient, magnet: MagnetConfig, d: Draws, rightSlot: nat) returns (scan: real)
      requires Wired() && ScanStaffed() && ScanTimesOk(p.scanParams, d) && pos.Valid() && stats.Valid() && stats.base.Valid()
      modifies scanner.scanTechs[ScanTechIndex(magnet.id, |scanner.scanTechs|)], env, magnet, p`state, p`scanDuration, p.body
      modifies pos`occupancy
      modifies stats`counts, stats`magnetMetrics, stats`metricCalls, stats`patientData, stats`scanCounts, stats`finished
      modifies stats.base`patientLog, stats.base`patientsArrived, stats.base`patientsInSystem, stats.base`stateChanges,
               stats.base`stateCalls, stats.base`magnetStart, stats.base`magnetState, stats.base`magnetBusyTime,
               stats.base`magnetOccupiedTime
      ensures pos.Valid() && stats.Valid() && stats.base.Valid()
      ensures pos.occupancy == old(pos.occupancy)[WaitingRoomRight := old(pos.occupancy)[WaitingRoomRight] - {rightSlot}]
      ensures p.state == Some(Scanning)
      ensures stats.finished == old(stats.finished) + (if env.now < stats.base.warmUp then [] else [p.pId])
      ensures stats.base.patientsInSystem == old(stats.base.patientsInSystem)
    {
      GoToMagnet(p, magnet, rightSlot);
      scan := ScanThenExit(p, magnet, d);
    }

    /** With the magnet held: the patient is examined, and the porter flips
        the bed for the exam given. */
    method UseMagnet(p: Patient, magnet: MagnetConfig, d: Draws, rightSlot: nat, exam: string, fast: real, slow: real)
      returns (flip: real)
      requires Wired() && ScanStaffed() && ScanTimesOk(p.scanParams, d) && fast >= 0.0 && slow >= 0.0
      requires pos.Valid() && res.Valid() && res.Free("porter") && stats.Valid() && stats.base.Valid()
      modifies scanner.scanTechs[ScanTechIndex(magnet.id, |scanner.scanTechs|)], env, magnet, p`state, p`scanDuration, p.body
      modifies pos`occupancy, res, porter.porter, porter.porter.body
      modifies stats`counts, stats`magnetMetrics, stats`metricCalls, stats`patientData, stats`scanCounts, stats`finished
      modifies stats.base`patientLog, stats.base`patientsArrived, stats.base`patientsInSystem, stats.base`stateChanges,
               stats.base`stateCalls, stats.base`magnetStart, stats.base`magnetState, stats.base`magnetBusyTime,
               stats.base`magnetOccupiedTime
      ensures pos.Valid() && res.Valid() && stats.Valid() && stats.base.Valid()
      ensures pos.occupancy == old(pos.occupancy)[WaitingRoomRight := old(pos.occupancy)[WaitingRoomRight] - {rightSlot}]
      ensures res.count == old(res.count)
      ensures res.events == old(res.events) + [Acquired("porter", Some(TurnoverPriority)), Released("porter")]
      ensures flip == FlipDuration(MapGet(old(res.lastExamType), magnet.resKey, None), exam, fast, slow)
      ensures res.lastExamType == old(res.lastExamType)[magnet.resKey := Some(exam)]
      ensures p.state == Some(Scanning)
      ensures stats.base.patientsInSystem == old(stats.base.patientsInSystem)
    {
      var scan := InRoom(p, magnet, d, rightSlot);
      assert res.Valid() && res.Free("porter") && res.count == old(res.count) && res.events == old(res.events);
      ghost var occupancy1, inSystem1 := pos.occupancy, stats.base.patientsInSystem;
      flip := porter.CleanRoom(magnet, exam, fast, slow);
      assert pos.Valid() && pos.occupancy == occupancy1 && stats.base.Valid() && stats.base.patientsInSystem == inSystem1;
    }

    /** The held magnet is used, then given back; `before` is the counts
        before the magnet was seized. */
    method UseAndFree(p: Patient, magnet: MagnetConfig, d: Draws, rightSlot: nat, exam: string, fast: real, slow: real,
                      ghost before: map<string, nat>)
      returns (flip: real)
      requires Wired() && ScanStaffed() && ScanTimesOk(p.scanParams, d) && fast >= 0.0 && slow >= 0.0
      requires pos.Valid() && res.Valid() && res.Free("porter") && stats.Valid() && stats.base.Valid()
      requires magnet.resKey != "magnet_access" && "magnet_access" in before && magnet.resKey in before
      requires res.count == before["magnet_access" := before["magnet_access"] + 1][magnet.resKey := before[magnet.resKey] + 1]
      requires |pool.items| < pool.capacity
      modifies scanner.scanTechs[ScanTechIndex(magnet.id, |scanner.scanTechs|)], env, magnet, p`state, p`scanDuration, p.body
      modifies pos`occupancy, res, pool, porter.porter, porter.porter.body
      modifies stats`counts, stats`magnetMetrics, stats`metricCalls, stats`patientData, stats`scanCounts, stats`finished
      modifies stats.base`patientLog, stats.base`patientsArrived, stats.base`patientsInSystem, stats.base`stateChanges,
               stats.base`stateCalls, stats.base`magnetStart, stats.base`magnetState, stats.base`magnetBusyTime,
               stats.base`magnetOccupiedTime
      ensures pos.Valid() && res.Valid() && stats.Valid() && stats.base.Valid()
      ensures pos.occupancy == old(pos.occupancy)[WaitingRoomRight := old(pos.occupancy)[WaitingRoomRight] - {rightSlot}]
      ensures res.count == before
      ensures res.events == old(res.events) + [Acquired("porter", Some(TurnoverPriority)), Released("porter")]
                                            + [Released(magnet.resKey), Released("magnet_access")]
      ensures flip == FlipDuration(MapGet(old(res.lastExamType), magnet.resKey, None), exam, fast, slow)
      ensures res.lastExamType == old(res.lastExamType)[magnet.resKey := Some(exam)]
      ensures pool.items == old(pool.items) + [magnet]
      ensures p.state == Some(Scanning)
      ensures stats.base.patientsInSystem == old(stats.base.patientsInSystem)
    {
      flip := UseMagnet(p, magnet, d, rightSlot, exam, fast, slow);
      FreeMagnet(magnet, before);
    }

    /** Steps 8 to 10 of the journey: the magnet is seized, used and freed.
        Every unit taken is given back — the porter first, then the magnet's
        own unit, then `magnet_access` — and the configuration goes to the
        tail of the pool. */
    method ScanPhase(p: Patient, d: Draws, rightSlot: nat, exam: string, fast: real, slow: real) returns (flip: real)
      requires Wired() && ScanStaffed() && ScanTimesOk(p.scanParams, d) && fast >= 0.0 && slow >= 0.0
      requires pos.Valid() && res.Valid() && Accounted()
      requires MagnetReady(pool.items, pool.capacity, res.count, res.capacity)
      modifies scanner.scanTechs[ScanTechIndex(pool.items[0].id, |scanner.scanTechs|)], pool.items[0]
      modifies env, p`state, p`scanDuration, p.body, pos`occupancy, res, pool, porter.porter, porter.porter.body
      modifies stats`counts, stats`magnetMetrics, stats`metricCalls, stats`patientData, stats`scanCounts, stats`finished
      modifies stats.base`patientLog, stats.base`patientsArrived, stats.base`patientsInSystem, stats.base`stateChanges,
               stats.base`stateCalls, stats.base`magnetStart, stats.base`magnetState, stats.base`magnetBusyTime,
               stats.base`magnetOccupiedTime
      ensures pos.Valid() && res.Valid() && Accounted()
      ensures pos.occupancy == old(pos.occupancy)[WaitingRoomRight := old(pos.occupancy)[WaitingRoomRight] - {rightSlot}]
      ensures res.count == old(res.count)
      ensures var key := old(pool.items[0].resKey);
              res.events == old(res.events) + [Acquired("magnet_access", Some(priorityOutpatient)),
                                               Acquired(key, Some(priorityOutpatient))]
                                            + [Acquired("porter", Some(TurnoverPriority)), Released("porter")]
                                            + [Released(key), Released("magnet_access")]
      ensures pool.items == old(pool.items[1..]) + [old(pool.items[0])]
      ensures var key := old(pool.items[0].resKey);
              && flip == FlipDuration(MapGet(old(res.lastExamType), key, None), exam, fast, slow)
              && res.lastExamType == old(res.lastExamType)[key := Some(exam)]
      ensures p.state == Some(Scanning)
      ensures stats.base.patientsInSystem == old(stats.base.patientsInSystem)
    {
      var magnet := SeizeMagnet();
      flip := UseAndFree(p, magnet, d, rightSlot, exam, fast, slow, old(res.count));
    }

    /** Steps 5 to 10 for a changed patient: the prep, then the scan. Both
        waiting-room slots are given back, every resource unit too, and the
        magnet configuration used goes to the tail of the pool. */
    method PrepAndScan(p: Patient, d: Draws, ivPrep: real, ivDifficult: real, screening: real,
                       exam: string, fast: real, slow: real) returns (flip: real)
      requires Wired() && ScanStaffed() && ScanTimesOk(p.scanParams, d)
      requires pos.Valid() && backup.Valid() && res.Valid() && Accounted()
      requires ivPrep >= 0.0 && ivDifficult >= 0.0 && screening >= 0.0 && fast >= 0.0 && slow >= 0.0
      requires forall i :: 0 <= i < |backup.techs| ==> backup.techs[i].body != p.body
      requires MagnetReady(pool.items, pool.capacity, res.count, res.capacity)
      requires pool.items[0].resKey != "backup_techs" && FreeIn(res.count, res.capacity, "backup_techs")
      modifies backup.Techs, backup.TechBodies
      modifies scanner.scanTechs[ScanTechIndex(pool.items[0].id, |scanner.scanTechs|)], pool.items[0]
      modifies env, p`state, p`hasIv, p`scanDuration, p.body, pos`occupancy, res, pool, porter.porter, porter.porter.body
      modifies stats`counts, stats`magnetMetrics, stats`metricCalls, stats`patientData, stats`scanCounts, stats`finished
      modifies stats.base`patientLog, stats.base`patientsArrived, stats.base`patientsInSystem, stats.base`stateChanges,
               stats.base`stateCalls, stats.base`magnetStart, stats.base`magnetState, stats.base`magnetBusyTime,
               stats.base`magnetOccupiedTime
      ensures pos.Valid() && res.Valid() && Accounted()
      ensures pos.occupancy == old(pos.occupancy)
      ensures res.count == old(res.count)
      ensures var key := old(pool.items[0].resKey);
              res.events == old(res.events) + [Acquired("backup_techs", Some(PrepPriority(gapMode, old(IsSimple(p))))),
                                               Released("backup_techs")]
                                            + [Acquired("magnet_access", Some(priorityOutpatient)),
                                               Acquired(key, Some(priorityOutpatient))]
                                            + [Acquired("porter", Some(TurnoverPriority)), Released("porter")]
                                            + [Released(key), Released("magnet_access")]
      ensures pool.items == old(pool.items[1..]) + [old(pool.items[0])]
      ensures var key := old(pool.items[0].resKey);
              && flip == FlipDuration(MapGet(old(res.lastExamType), key, None), exam, fast, slow)
              && res.lastExamType == old(res.lastExamType)[key := Some(exam)]
      ensures p.state == Some(Scanning)
      ensures stats.base.patientsInSystem == old(stats.base.patientsInSystem)
    {
      var rightSlot := PrepPhase(p, ivPrep, ivDifficult, screening);
      flip := ScanPhase(p, d, rightSlot, exam, fast, slow);
      TakeThenRelease(old(pos.occupancy), WaitingRoomRight, rightSlot, p.pId);
    }

    /** The change rooms of a shuffled order are resource keys other than
        the porter's, each has a centre on the map, and staging is on the
        map too. */
    ghost predicate RoomsMapped(keys: seq<string>)
      reads res`count
    {
      && (forall i :: 0 <= i < |keys| ==> keys[i] in res.count && keys[i] != "porter")
      && (forall i :: 0 <= i < |keys| ==> keys[i] + "_center" in agentPositions)
      && "change_staging" in agentPositions
    }

    /** Steps 2 to 10 of `run`, for an outpatient: registration and
        changing, then, once a room was held, the prep, the scan and the
        turnover for the patient's own protocol. Every unit and slot taken is
        given back; the patient is counted in the system once more. */
    method Outpatient(p: Patient, d: Draws) returns (outcome: Outcome)
      requires Wired() && ScanStaffed() && DelaysOk(processTimes, d) && RoomsMapped(d.roomOrder)
      requires pos.Valid() && backup.Valid() && res.Valid() && Accounted() && admin.desk.Valid()
      requires p.body !in admin.desk.Bodies() && p.body != porter.porter.body
      requires forall i :: 0 <= i < |backup.techs| ==> backup.techs[i].body != p.body
      requires MagnetReady(pool.items, pool.capacity, res.count, res.capacity)
      requires pool.items[0].resKey != "backup_techs" && FreeIn(res.count, res.capacity, "backup_techs") && res.Free("admin_ta")
      modifies backup.Techs, backup.TechBodies
      modifies scanner.scanTechs[ScanTechIndex(pool.items[0].id, |scanner.scanTechs|)], pool.items[0]
      modifies env, p`state, p`hasIv, p`scanDuration, p.body, pos`occupancy, res, pool, porter.porter, porter.porter.body
      modifies admin.desk`queue, admin.desk.Bodies()
      modifies stats`counts, stats`magnetMetrics, stats`metricCalls, stats`patientData, stats`scanCounts, stats`finished
      modifies stats.base
      ensures outcome != SkippedInpatient
      ensures res.count == old(res.count)
      ensures outcome == WaitingInStaging <==> old(FirstFreeRoom(res.count, res.capacity, d.roomOrder)).None?
      ensures stats.base.patientsInSystem == old(stats.base.patientsInSystem) + 1
      ensures outcome == WaitingInStaging ==> pool.items == old(pool.items) && pos.occupancy == old(pos.occupancy)
      ensures outcome.Completed? ==>
                && pos.occupancy == old(pos.occupancy)
                && pool.items == old(pool.items[1..]) + [old(pool.items[0])]
                && p.state == Some(Scanning)
      ensures outcome.Completed? ==>
                var key := old(pool.items[0].resKey);
                var fast := GetTime(processTimes, "bed_flip_fast", d.fastFlipDraw);
                var slow := GetTime(processTimes, "bed_flip_slow", d.slowFlipDraw);
                && outcome.flip == FlipDuration(MapGet(old(res.lastExamType), key, None), old(ExamOf(p)), fast, slow)
                && res.lastExamType == old(res.lastExamType)[key := Some(old(ExamOf(p)))]
    {
      var room, _ := RegisterAndChange(p, d, GetTime(processTimes, "registration", d.regDraw));
      if room.None? {
        return WaitingInStaging;
      }
      ScanTimeNonNegative(p.scanParams, d.triDraw, d.z, GetTime(processTimes, "scan_duration", d.scanDraw));
      var flip := PrepAndScan(p, d, GetTime(processTimes, "iv_prep", d.ivPrepDraw),
                              GetTime(processTimes, "iv_difficult", d.ivDifficultDraw),
                              GetTime(processTimes, "screening", d.screeningDraw), ExamOf(p),
                              GetTime(processTimes, "bed_flip_fast", d.fastFlipDraw),
                              GetTime(processTimes, "bed_flip_slow", d.slowFlipDraw));
      outcome := Completed(flip);
    }
  
    /** `run`: arrival and classification, then, for an outpatient, the
        journey. An inpatient is skipped and leaves every resource, log and
        slot as it was. */
    method Run(p: Patient, d: Draws) returns (outcome: Outcome)
      requires !p.clinicalInitDone ==> d.protocol in cfg.protocols
      requires Wired() && ScanStaffed() && DelaysOk(processTimes, d) && RoomsMapped(d.roomOrder)
      requires pos.Valid() && backup.Valid() && res.Valid() && Accounted() && admin.desk.Valid()
      requires p.body !in admin.desk.Bodies() && p.body != porter.porter.body
      requires forall i :: 0 <= i < |backup.techs| ==> backup.techs[i].body != p.body
      requires MagnetReady(pool.items, pool.capacity, res.count, res.capacity)
      requires pool.items[0].resKey != "backup_techs" && FreeIn(res.count, res.capacity, "backup_techs") && res.Free("admin_ta")
      modifies p`scanProtocol, p`scanParams, p`needsIv, p`isDifficultIv, p`clinicalInitDone, p`arrivalTime
      modifies backup.Techs, backup.TechBodies
      modifies scanner.scanTechs[ScanTechIndex(pool.items[0].id, |scanner.scanTechs|)], pool.items[0]
      modifies env, p`state, p`hasIv, p`scanDuration, p.body, pos`occupancy, res, pool, porter.porter, porter.porter.body
      modifies admin.desk`queue, admin.desk.Bodies()
      modifies stats`counts, stats`magnetMetrics, stats`metricCalls, stats`patientData, stats`scanCounts, stats`finished
      modifies stats.base
      ensures outcome == SkippedInpatient <==> old(p.isInpatient).GetOr(d.inpatientDraw < cfg.probInpatient)
      ensures res.count == old(res.count)
      ensures outcome == SkippedInpatient ==>
                && res.events == old(res.events) && stats.base.stateCalls == old(stats.base.stateCalls)
                && stats.base.patientsInSystem == old(stats.base.patientsInSystem)
      ensures outcome != SkippedInpatient ==> stats.base.patientsInSystem == old(stats.base.patientsInSystem) + 1
      ensures outcome.Completed? ==> pool.items == old(pool.items[1..]) + [old(pool.items[0])]
      ensures !outcome.Completed? ==> pool.items == old(pool.items) && pos.occupancy == old(pos.occupancy)
    {
      var inpatient := Arrive(p, d);
      if inpatient {
        return SkippedInpatient;
      }
      outcome := Outpatient(p, d);
    }
  }

  /** `run_generator`: patients get the ids 1, 2, 3, ... and each is counted
      in the system as it is created; between two creations the clock moves
      on by the next inter-arrival gap. The loop stops once past the last
      hour with nobody in the system, or when the gaps run out. The journeys
      it starts are separate processes and are not run here, so nothing
      leaves the system: once anyone is in it the stop is never taken. */
  method RunGenerator(env: Env, stats: SimStats, duration: real, gaps: seq<real>) returns (ids: seq<int>)
    requires forall i :: 0 <= i < |gaps| ==> gaps[i] >= 0.0
    modifies env, stats`patientsInSystem
    ensures |ids| <= |gaps|
    ensures forall i :: 0 <= i < |ids| ==> ids[i] == i + 1
    ensures stats.patientsInSystem == old(stats.patientsInSystem) + |ids|
    ensures |ids| < |gaps| ==> GeneratorStops(env.now, duration, stats.patientsInSystem)
    ensures old(stats.patientsInSystem) > 0 || |ids| > 0 ==> |ids| == |gaps|
    ensures env.now >= old(env.now)
  {
    ids := [];
    var pId := 0;
    while |ids| < |gaps| && !GeneratorStops(env.now, duration, stats.patientsInSystem)
      invariant |ids| <= |gaps| && pId == |ids|
      invariant forall i :: 0 <= i < |ids| ==> ids[i] == i + 1
      invariant stats.patientsInSystem == old(stats.patientsInSystem) + |ids|
      invariant env.now >= old(env.now)
      decreases |gaps| - |ids|
    {
      pId := pId + 1;
      ids := ids + [pId];
      stats.patientsInSystem := stats.patientsInSystem + 1;
      env.Timeout(gaps[|ids| - 1]);
    }
  }
}
