/** The high-acuity inpatient path (src/core/inpatient_workflow.py): no
    registration, a hold in room 311 where the patient is prepped at once,
    then a magnet requested at inpatient priority, a scan by the magnet's
    technologist or by the backup covering their break, and a porter-assisted
    exit after which everything held is given back. */
module InpatientFlow {
  import opened Sim
  import opened HeadlessEntities
  import opened Tracker
  import opened Aggregator
  import opened ScannerFlow

  /** The sampled inputs of one inpatient: the holding slot (`randint(0, 1)`,
      true for the second), the holding prep, the bed transfer and the scan. */
  datatype InpatientDraws = InpatientDraws(secondSlot: bool, holdingPrep: real, bedTransfer: real, scan: real)

  /** The porter is requested at this priority for the egress. */
  const EgressPriority: int := 0

  /** `tech_idx`: the 3T magnet is looked after by scan technologist 0, any
      other magnet by technologist 1. */
  function CoverageIndex(magnetId: string): (i: nat)
    ensures i < 2
    ensures i == 0 <==> magnetId == "3T"
  {
    if magnetId == "3T" then 0 else 1
  }

  /** Whether the technologist at `idx` is on a break: the staff manager's
      coverage flag, false when no manager is registered or it holds no flag. */
  function OnBreak(coverage: Option<map<nat, bool>>, idx: nat): (b: bool)
    ensures b <==> coverage.Some? && idx in coverage.value && coverage.value[idx]
  {
    if coverage.Some? then MapGet(coverage.value, idx, false) else false
  }

  /** A technologist by list and position. */
  datatype Technologist = ScanTech(index: nat) | BackupTech(index: nat)

  /** The technologist who scans an inpatient: while the looked-after
      technologist is on a break, the backup at `tech_idx mod #backups`;
      otherwise the magnet's own scan technologist, with technologist 0
      standing in when there is only one. */
  function InpatientTech(magnetId: string, onBreak: bool, nBackup: nat, nScan: nat): (t: Technologist)
    requires onBreak ==> nBackup > 0
    requires !onBreak ==> nScan > 0
    ensures onBreak ==> t == BackupTech(CoverageIndex(magnetId) % nBackup)
    ensures !onBreak ==> t == ScanTech(ScanTechIndex(magnetId, nScan))
    ensures t.ScanTech? ==> t.index < nScan
    ensures t.BackupTech? ==> t.index < nBackup
  {
    if onBreak then BackupTech(CoverageIndex(magnetId) % nBackup)
    else
      var tech3T := 0;
      var tech15T := if nScan > 1 then 1 else tech3T;
      ScanTech(if magnetId == "3T" then tech3T else tech15T)
  }

  /** With two or more scan technologists, the flag consulted is the flag of
      the technologist who would scan: off break, the scan goes to exactly the
      technologist whose break was checked. */
  lemma CoverageFlagMatchesTech(magnetId: string, nBackup: nat, nScan: nat)
    requires nScan >= 2
    ensures InpatientTech(magnetId, false, nBackup, nScan) == ScanTech(CoverageIndex(magnetId))
  {
  }

  /** With a single backup, every covered inpatient scan goes to that backup. */
  lemma SingleBackupCovers(magnetId: string, nScan: nat)
    ensures InpatientTech(magnetId, true, 1, nScan) == BackupTech(0)
  {
  }

  /** The holding-room slot position: the slot's entry on the map, or the
      default spot when the slot is not on it. */
  function SlotPos(agentPositions: map<string, Pos>, secondSlot: bool): (r: Pos)
    ensures var key := if secondSlot then "room_311_slot_2" else "room_311_slot_1";
            r == (if key in agentPositions then agentPositions[key] else Pos(450, 350))
  {
    MapGet(agentPositions, if secondSlot then "room_311_slot_2" else "room_311_slot_1", Pos(450, 350))
  }

  /** What the path needs once room 311 exists: a free unit of it, of magnet
      access, of the first pooled magnet and of the porter, all under
      distinct keys. */
  ghost predicate InpatientReady(items: seq<MagnetConfig>, count: map<string, nat>, capacity: map<string, nat>)
  {
    && |items| > 0
    && items[0].resKey != "magnet_access" && items[0].resKey != "porter" && items[0].resKey != "room_311"
    && Vacant(count, capacity, "room_311") && Vacant(count, capacity, "magnet_access")
    && Vacant(count, capacity, items[0].resKey) && Vacant(count, capacity, "porter")
  }

  /** `count < capacity` for a resource that exists, on the table's values. */
  ghost predicate Vacant(count: map<string, nat>, capacity: map<string, nat>, k: string) {
    k in count && k in capacity && count[k] < capacity[k]
  }

  /** The counts with one more unit of magnet access and of the magnet `key`. */
  function Seized(count: map<string, nat>, key: string): map<string, nat> {
    Plus(Plus(count, "magnet_access"), key)
  }

  class InpatientWorkflow {
    const env: Env
    const res: ResourceTable
    const stats: MetricAggregator
    const pool: MagnetPool
    const porter: Staff
    const scanTechs: seq<Staff>
    const backups: seq<Staff>
    const agentPositions: map<string, Pos>
    const priorityInpatient: int

    /** The porter is none of the technologists and the exit is on the map. */
    ghost predicate Staffed() {
      && (forall i :: 0 <= i < |scanTechs| ==> scanTechs[i] != porter && scanTechs[i].body != porter.body)
      && (forall i :: 0 <= i < |backups| ==> backups[i] != porter && backups[i].body != porter.body)
      && "exit" in agentPositions
    }

    constructor (env: Env, res: ResourceTable, stats: MetricAggregator, pool: MagnetPool, porter: Staff,
                 scanTechs: seq<Staff>, backups: seq<Staff>, agentPositions: map<string, Pos>,
                 priorityInpatient: int)
      ensures this.env == env && this.res == res && this.stats == stats && this.pool == pool
      ensures this.porter == porter && this.scanTechs == scanTechs && this.backups == backups
      ensures this.agentPositions == agentPositions && this.priorityInpatient == priorityInpatient
    {
      this.env := env;
      this.res := res;
      this.stats := stats;
      this.pool := pool;
      this.porter := porter;
      this.scanTechs := scanTechs;
      this.backups := backups;
      this.agentPositions := agentPositions;
      this.priorityInpatient := priorityInpatient;
    }

    /** Both statistics objects keep their invariants. */
    ghost predicate Accounted()
      reads stats`magnetMetrics, stats`metricCalls, stats`counts, stats`finished, stats`patientData
      reads stats.base`magnetBusyTime, stats.base`magnetOccupiedTime, stats.base`magnetStart, stats.base`magnetState
    {
      stats.Valid() && stats.base.Valid()
    }

    /** The staff member a technologist choice names. */
    function TechOf(t: Technologist): Staff
      requires t.ScanTech? ==> t.index < |scanTechs|
      requires t.BackupTech? ==> t.index < |backups|
    {
      if t.ScanTech? then scanTechs[t.index] else backups[t.index]
    }

    /** Step 1: the patient arrives without registering: arriving, with the
        arrival time and the log entry. */
    method Admit(p: Patient)
      requires stats.base.Valid()
      modifies p`state, p`arrivalTime
      modifies stats.base`patientsArrived, stats.base`patientsInSystem, stats.base`stateChanges, stats.base`stateCalls
      ensures stats.base.Valid()
      ensures p.state == Some(Arriving) && p.arrivalTime == Some(env.now)
      ensures stats.base.stateCalls == old(stats.base.stateCalls) + [StateChange(p.pId, None, Arriving, env.now)]
      ensures stats.base.patientsInSystem == old(stats.base.patientsInSystem) + 1
    {
      p.SetState(Arriving);
      p.arrivalTime := Some(env.now);
      stats.base.LogStateChange(p.pId, None, Arriving, env.now);
    }

    /** Steps 2 and 3: a unit of room 311 is held; the patient takes the drawn
        slot, is prepped at once (logged, with the move to the holding room)
        and the holding prep runs. */
    method Hold(p: Patient, secondSlot: bool, prep: real)
      requires res.Valid() && res.Free("room_311") && stats.base.Valid() && prep >= 0.0
      modifies res`count, res`events, p`state, p.body, env
      modifies stats.base`patientsArrived, stats.base`patientsInSystem, stats.base`stateChanges, stats.base`stateCalls
      modifies stats.base`patientLog
      ensures res.Valid() && stats.base.Valid()
      ensures res.count == Plus(old(res.count), "room_311")
      ensures res.events == old(res.events) + [Acquired("room_311", None)]
      ensures p.body.x == SlotPos(agentPositions, secondSlot).x && p.body.y == SlotPos(agentPositions, secondSlot).y
      ensures p.state == Some(Prepped)
      ensures stats.base.stateCalls == old(stats.base.stateCalls) + [StateChange(p.pId, Some(Arriving), Prepped, old(env.now))]
      ensures stats.base.patientsInSystem == old(stats.base.patientsInSystem)
      ensures stats.base.patientLog == if old(env.now) < stats.base.warmUp then old(stats.base.patientLog)
                else old(stats.base.patientLog) + [Movement(p.pId, "holding_transfer", old(env.now) - stats.base.warmUp)]
      ensures env.now == old(env.now) + prep
    {
      res.Acquire("room_311", None);
      p.body.MoveToPoint(SlotPos(agentPositions, secondSlot));
      p.SetState(Prepped);
      stats.base.LogStateChange(p.pId, Some(Arriving), Prepped, env.now);
      stats.base.LogMovement(p.pId, "holding_transfer", env.now);
      env.Timeout(prep);
    }

    /** Steps 4 and 5: magnet access, then the pool's first magnet, each
        requested at inpatient priority; the bed transfer takes the patient
        to the magnet. */
    method Transfer(p: Patient, transfer: real) returns (magnet: MagnetConfig)
      requires res.Valid() && res.Free("magnet_access") && |pool.items| > 0
      requires pool.items[0].resKey != "magnet_access" && res.Free(pool.items[0].resKey)
      requires transfer >= 0.0
      modifies res`count, res`events, pool, p.body, env
      ensures res.Valid()
      ensures magnet == old(pool.items[0]) && pool.items == old(pool.items[1..])
      ensures res.count == Seized(old(res.count), magnet.resKey)
      ensures res.events == old(res.events) + [Acquired("magnet_access", Some(priorityInpatient)),
                                               Acquired(magnet.resKey, Some(priorityInpatient))]
      ensures p.body.x == magnet.loc.x && p.body.y == magnet.loc.y
      ensures env.now == old(env.now) + transfer
    {
      res.Acquire("magnet_access", Some(priorityInpatient));
      magnet := pool.Get();
      res.Acquire(magnet.resKey, Some(priorityInpatient));
      p.body.MoveToPoint(magnet.loc);
      env.Timeout(transfer);
    }

    /** The scan starts: the technologist is busy, the patient scanning (logged,
        with the move to the magnet's name), the room busy and the magnet's
        scanning time running. */
    method StartScan(tech: Staff, p: Patient, magnet: MagnetConfig)
      requires stats.base.Valid()
      modifies tech, p`state, magnet, stats.base`magnetStart, stats.base`magnetState
      modifies stats.base`patientsArrived, stats.base`patientsInSystem, stats.base`stateChanges, stats.base`stateCalls
      modifies stats.base`patientLog
      ensures stats.base.Valid()
      ensures tech.busy && tech.busyTrace == old(tech.busyTrace) + [true]
      ensures p.state == Some(Scanning)
      ensures stats.base.stateCalls == old(stats.base.stateCalls) + [StateChange(p.pId, Some(Prepped), Scanning, env.now)]
      ensures stats.base.patientsInSystem == old(stats.base.patientsInSystem)
      ensures stats.base.patientLog == if env.now < stats.base.warmUp then old(stats.base.patientLog)
                else old(stats.base.patientLog) + [Movement(p.pId, magnet.name, env.now - stats.base.warmUp)]
      ensures magnet.visualTrace == old(magnet.visualTrace) + [Busy] && magnet.visualState == Busy
      ensures stats.base.magnetStart == Some(env.now) && stats.base.magnetState == ScanningPhase
    {
      tech.SetBusy(true);
      p.SetState(Scanning);
      stats.base.LogStateChange(p.pId, Some(Prepped), Scanning, env.now);
      stats.base.LogMovement(p.pId, magnet.name, env.now);
      magnet.SetVisual(Busy);
      stats.base.LogMagnetStart(env.now, true);
    }

    /** The scan runs; its time is logged as the magnet's value-added 'scan'
        metric and, through the pending start, as busy and occupied time. */
    method FinishScan(magnet: MagnetConfig, scan: real)
      requires stats.Valid() && stats.base.Valid() && scan >= 0.0
      requires stats.base.magnetStart == Some(env.now) && stats.base.magnetState == ScanningPhase
      modifies env, stats`counts, stats`magnetMetrics, stats`metricCalls
      modifies stats.base`magnetStart, stats.base`magnetState, stats.base`magnetBusyTime, stats.base`magnetOccupiedTime
      ensures stats.Valid() && stats.base.Valid()
      ensures stats.metricCalls == old(stats.metricCalls) + [MetricCall(magnet.id, "scan", scan)]
      ensures stats.magnetMetrics == old(stats.magnetMetrics).(valueAdded := old(stats.magnetMetrics).valueAdded + scan)
      ensures stats.counts == old(stats.counts)
      ensures stats.base.magnetStart == None && stats.base.magnetState == Idle
      ensures stats.base.magnetBusyTime == old(stats.base.magnetBusyTime) + scan
      ensures stats.base.magnetOccupiedTime == old(stats.base.magnetOccupiedTime) + scan
      ensures env.now == old(env.now) + scan
    {
      env.Timeout(scan);
      stats.LogMagnetMetric(magnet.id, "scan", scan);
      stats.base.LogMagnetEnd(env.now);
    }

    /** The room turns dirty; the porter is requested at priority 0, becomes
        busy and walks to the magnet. */
    method CallPorter(magnet: MagnetConfig)
      requires res.Valid() && res.Free("porter")
      modifies magnet, res`count, res`events, porter, porter.body
      ensures res.Valid()
      ensures magnet.visualTrace == old(magnet.visualTrace) + [Dirty] && magnet.visualState == Dirty
      ensures res.count == Plus(old(res.count), "porter")
      ensures res.events == old(res.events) + [Acquired("porter", Some(EgressPriority))]
      ensures porter.busy && porter.busyTrace == old(porter.busyTrace) + [true]
      ensures porter.body.x == magnet.loc.x && porter.body.y == magnet.loc.y
    {
      magnet.SetVisual(Dirty);
      res.Acquire("porter", Some(EgressPriority));
      porter.SetBusy(true);
      porter.body.MoveToPoint(magnet.loc);
    }

    /** The patient exits (logged) and walks out with the porter; the room
        turns clean as they leave. */
    method LeaveWithPorter(p: Patient, magnet: MagnetConfig)
      requires stats.base.Valid() && "exit" in agentPositions && p.body != porter.body
      modifies p`state, p.body, porter.body, magnet
      modifies stats.base`patientsArrived, stats.base`patientsInSystem, stats.base`stateChanges, stats.base`stateCalls
      ensures stats.base.Valid()
      ensures p.state == Some(Exited)
      ensures stats.base.stateCalls == old(stats.base.stateCalls) + [StateChange(p.pId, Some(Scanning), Exited, env.now)]
      ensures stats.base.patientsInSystem ==
                if old(stats.base.patientsInSystem) == 0 then 0 else old(stats.base.patientsInSystem) - 1
      ensures p.body.x == agentPositions["exit"].x && p.body.y == agentPositions["exit"].y
      ensures porter.body.x == agentPositions["exit"].x && porter.body.y == agentPositions["exit"].y
      ensures magnet.visualTrace == old(magnet.visualTrace) + [Clean] && magnet.visualState == Clean
    {
      p.SetState(Exited);
      stats.base.LogStateChange(p.pId, Some(Scanning), Exited, env.now);
      p.body.MoveToPoint(agentPositions["exit"]);
      porter.body.MoveToPoint(agentPositions["exit"]);
      magnet.SetVisual(Clean);
    }

    /** The exit movement is logged and the patient recorded as finished
        (only after the warm-up). */
    method Finish(p: Patient)
      requires stats.Valid()
      modifies stats.base`patientLog, stats`patientData, stats`scanCounts, stats`counts, stats`finished
      ensures stats.Valid()
      ensures stats.base.patientLog == if env.now < stats.base.warmUp then old(stats.base.patientLog)
                else old(stats.base.patientLog) + [Movement(p.pId, "exit", env.now - stats.base.warmUp)]
      ensures stats.finished == old(stats.finished) + (if env.now < stats.base.warmUp then [] else [p.pId])
      ensures stats.magnetMetrics == old(stats.magnetMetrics) && stats.metricCalls == old(stats.metricCalls)
    {
      stats.base.LogMovement(p.pId, "exit", env.now);
      stats.LogPatientFinished(p, env.now);
    }

    /** The porter is no longer busy, goes home and is released. */
    method ReleasePorter(ghost held: map<string, nat>)
      requires res.Valid() && "porter" in held && res.count == Plus(held, "porter")
      modifies res`count, res`events, porter, porter.body
      ensures res.Valid() && res.count == held
      ensures res.events == old(res.events) + [Released("porter")]
      ensures !porter.busy && porter.busyTrace == old(porter.busyTrace) + [false]
      ensures porter.body.home.Some? ==> porter.body.x == porter.body.home.value.x && porter.body.y == porter.body.home.value.y
    {
      porter.SetBusy(false);
      porter.body.ReturnHome();
      res.Release("porter");
      PlusThenMinus(held, "porter");
    }

    /** The technologist is no longer busy and goes home; the magnet's unit
        and the access unit are given back (restoring the counts `before` the
        magnet was seized) and the configuration rejoins the pool. */
    method ReleaseMagnet(tech: Staff, magnet: MagnetConfig, ghost before: map<string, nat>)
      requires res.Valid() && magnet.resKey != "magnet_access"
      requires "magnet_access" in before && magnet.resKey in before
      requires res.count == Seized(before, magnet.resKey)
      requires |pool.items| < pool.capacity
      modifies res`count, res`events, pool, tech, tech.body
      ensures res.Valid() && res.count == before
      ensures res.events == old(res.events) + [Released(magnet.resKey), Released("magnet_access")]
      ensures pool.items == old(pool.items) + [magnet]
      ensures !tech.busy && tech.busyTrace == old(tech.busyTrace) + [false]
      ensures tech.body.home.Some? ==> tech.body.x == tech.body.home.value.x && tech.body.y == tech.body.home.value.y
    {
      tech.SetBusy(false);
      tech.body.ReturnHome();
      PlusThenMinus(Plus(before, "magnet_access"), magnet.resKey);
      PlusThenMinus(before, "magnet_access");
      res.Release(magnet.resKey);
      res.Release("magnet_access");
      pool.Put(magnet);
    }

    /** Steps 2 to 5: held in room 311 and prepped there, then the magnet
        seized and the bed transferred to it. */
    method Prepare(p: Patient, secondSlot: bool, prep: real, transfer: real, ghost start: real)
      returns (magnet: MagnetConfig)
      requires res.Valid() && stats.base.Valid() && prep >= 0.0 && transfer >= 0.0 && env.now == start
      requires InpatientReady(pool.items, res.count, res.capacity)
      modifies res`count, res`events, pool, p`state, p.body, env
      modifies stats.base`patientsArrived, stats.base`patientsInSystem, stats.base`stateChanges, stats.base`stateCalls
      modifies stats.base`patientLog
      ensures res.Valid() && stats.base.Valid()
      ensures magnet == old(pool.items[0]) && pool.items == old(pool.items[1..])
      ensures res.count == Seized(Plus(old(res.count), "room_311"), magnet.resKey)
      ensures res.events == old(res.events) + [Acquired("room_311", None)]
                                            + [Acquired("magnet_access", Some(priorityInpatient)),
                                               Acquired(magnet.resKey, Some(priorityInpatient))]
      ensures p.state == Some(Prepped)
      ensures stats.base.stateCalls == old(stats.base.stateCalls) + [StateChange(p.pId, Some(Arriving), Prepped, start)]
      ensures stats.base.patientsInSystem == old(stats.base.patientsInSystem)
      ensures p.body.x == magnet.loc.x && p.body.y == magnet.loc.y
      ensures env.now == start + prep + transfer
    {
      Hold(p, secondSlot, prep);
      magnet := Transfer(p, transfer);
    }

    /** Step 6: the scan by the chosen technologist (`StartScan`, then
        `FinishScan`), at the end of which the patient is still logged as
        scanning. */
    method Scan(tech: Staff, p: Patient, magnet: MagnetConfig, scan: real, ghost start: real)
      requires Accounted() && scan >= 0.0 && env.now == start
      modifies tech, p`state, magnet, env, stats`counts, stats`magnetMetrics, stats`metricCalls
      modifies stats.base`magnetStart, stats.base`magnetState, stats.base`magnetBusyTime, stats.base`magnetOccupiedTime
      modifies stats.base`patientsArrived, stats.base`patientsInSystem, stats.base`stateChanges, stats.base`stateCalls
      modifies stats.base`patientLog
      ensures Accounted()
      ensures stats.base.stateCalls == old(stats.base.stateCalls) + [StateChange(p.pId, Some(Prepped), Scanning, start)]
      ensures stats.base.patientsInSystem == old(stats.base.patientsInSystem)
      ensures env.now == start + scan
    {
      StartScan(tech, p, magnet);
      FinishScan(magnet, scan);
    }

    /** Step 7: the porter fetches the patient from the dirty room
        (`CallPorter`), the patient exits with the porter (`LeaveWithPorter`)
        and is recorded as finished (`Finish`); the porter is still held. */
    method Egress(p: Patient, magnet: MagnetConfig)
      requires res.Valid() && res.Free("porter") && Accounted()
      requires "exit" in agentPositions && p.body != porter.body
      modifies magnet, res`count, res`events, porter, porter.body, p`state, p.body
      modifies stats.base`patientsArrived, stats.base`patientsInSystem, stats.base`stateChanges, stats.base`stateCalls
      modifies stats.base`patientLog, stats`patientData, stats`scanCounts, stats`counts, stats`finished
      ensures res.Valid()
      ensures res.count == Plus(old(res.count), "porter")
      ensures res.events == old(res.events) + [Acquired("porter", Some(EgressPriority))]
      ensures stats.base.stateCalls == old(stats.base.stateCalls) + [StateChange(p.pId, Some(Scanning), Exited, env.now)]
      ensures stats.base.patientsInSystem ==
                if old(stats.base.patientsInSystem) == 0 then 0 else old(stats.base.patientsInSystem) - 1
    {
      CallPorter(magnet);
      LeaveWithPorter(p, magnet);
      Finish(p);
    }

    /** Steps 6 and 7: the scan, then the porter-assisted exit. */
    method ScanAndLeave(tech: Staff, p: Patient, magnet: MagnetConfig, scan: real, ghost start: real)
      returns (ghost exitAt: real)
      requires res.Valid() && res.Free("porter") && Accounted()
      requires "exit" in agentPositions && p.body != porter.body && tech != porter
      requires scan >= 0.0 && env.now == start
      modifies tech, magnet, env, res`count, res`events, porter, porter.body, p`state, p.body
      modifies stats`counts, stats`magnetMetrics, stats`metricCalls, stats`patientData, stats`scanCounts, stats`finished
      modifies stats.base`magnetStart, stats.base`magnetState, stats.base`magnetBusyTime, stats.base`magnetOccupiedTime
      modifies stats.base`patientsArrived, stats.base`patientsInSystem, stats.base`stateChanges, stats.base`stateCalls
      modifies stats.base`patientLog
      ensures res.Valid()
      ensures res.count == Plus(old(res.count), "porter")
      ensures res.events == old(res.events) + [Acquired("porter", Some(EgressPriority))]
      ensures stats.base.stateCalls == old(stats.base.stateCalls) + [StateChange(p.pId, Some(Prepped), Scanning, start),
                                                                     StateChange(p.pId, Some(Scanning), Exited, exitAt)]
      ensures exitAt == start + scan && env.now == exitAt
      ensures stats.base.patientsInSystem ==
                if old(stats.base.patientsInSystem) == 0 then 0 else old(stats.base.patientsInSystem) - 1
    {
      Scan(tech, p, magnet, scan, start);
      exitAt := env.now;
      Egress(p, magnet);
    }

    /** Whether the technologist the scan needs exists: a backup while the
        looked-after technologist is on a break, a scan technologist otherwise. */
    predicate Covered(magnetId: string, coverage: Option<map<nat, bool>>) {
      var onBreak := OnBreak(coverage, CoverageIndex(magnetId));
      (onBreak ==> |backups| > 0) && (!onBreak ==> |scanTechs| > 0)
    }

    /** The staff member who scans on the magnet `magnetId`. */
    function ChosenTech(magnetId: string, coverage: Option<map<nat, bool>>): Staff
      requires Covered(magnetId, coverage)
    {
      TechOf(InpatientTech(magnetId, OnBreak(coverage, CoverageIndex(magnetId)), |backups|, |scanTechs|))
    }

    /** The porter, the technologist, the magnet and its access unit are given
        back in that order, restoring the counts `before` the magnet was seized. */
    method ReleaseAll(tech: Staff, magnet: MagnetConfig, ghost before: map<string, nat>)
      requires res.Valid() && tech != porter
      requires magnet.resKey != "magnet_access" && magnet.resKey != "porter"
      requires "magnet_access" in before && magnet.resKey in before && "porter" in before
      requires res.count == Plus(Seized(before, magnet.resKey), "porter")
      requires |pool.items| < pool.capacity
      modifies res`count, res`events, pool, porter, porter.body, tech, tech.body
      ensures res.Valid() && res.count == before
      ensures res.events == old(res.events) + [Released("porter")] + [Released(magnet.resKey), Released("magnet_access")]
      ensures pool.items == old(pool.items) + [magnet]
      ensures porter.busyTrace == old(porter.busyTrace) + [false]
      ensures tech.busyTrace == old(tech.busyTrace) + [false]
    {
      ReleasePorter(Seized(before, magnet.resKey));
      ReleaseMagnet(tech, magnet, before);
    }

    /** Steps 6 and 7 and the release sequence for a patient on the magnet:
        every unit taken since `before` (the counts with room 311 held) is
        given back, in the order porter, magnet, access. */
    method ScanLeaveRelease(tech: Staff, p: Patient, magnet: MagnetConfig, scan: real,
                            ghost before: map<string, nat>, ghost start: real)
      returns (ghost exitAt: real)
      requires res.Valid() && res.Free("porter") && Accounted() && |pool.items| < pool.capacity
      requires "exit" in agentPositions && p.body != porter.body && tech != porter && tech.body != porter.body
      requires magnet.resKey != "magnet_access" && magnet.resKey != "porter"
      requires "magnet_access" in before && magnet.resKey in before
      requires res.count == Seized(before, magnet.resKey)
      requires scan >= 0.0 && env.now == start
      modifies tech, tech.body, magnet, env, res`count, res`events, pool, porter, porter.body, p`state, p.body
      modifies stats`counts, stats`magnetMetrics, stats`metricCalls, stats`patientData, stats`scanCounts, stats`finished
      modifies stats.base`magnetStart, stats.base`magnetState, stats.base`magnetBusyTime, stats.base`magnetOccupiedTime
      modifies stats.base`patientsArrived, stats.base`patientsInSystem, stats.base`stateChanges, stats.base`stateCalls
      modifies stats.base`patientLog
      ensures res.Valid() && res.count == before
      ensures res.events == old(res.events) + [Acquired("porter", Some(EgressPriority))]
                                            + [Released("porter")] + [Released(magnet.resKey), Released("magnet_access")]
      ensures pool.items == old(pool.items) + [magnet]
      ensures stats.base.stateCalls == old(stats.base.stateCalls) + [StateChange(p.pId, Some(Prepped), Scanning, start),
                                                                     StateChange(p.pId, Some(Scanning), Exited, exitAt)]
      ensures exitAt == start + scan
      ensures stats.base.patientsInSystem ==
                if old(stats.base.patientsInSystem) == 0 then 0 else old(stats.base.patientsInSystem) - 1
    {
      exitAt := ScanAndLeave(tech, p, magnet, scan, start);
      ReleaseAll(tech, magnet, before);
    }

    /** Steps 6 and 7 and the whole release sequence, room 311 last: from
        the counts `held` plus room 311 and the seized magnet, every count
        returns to `held`. */
    method ScanAndRelease(p: Patient, magnet: MagnetConfig, scan: real, coverage: Option<map<nat, bool>>,
                          ghost held: map<string, nat>, ghost start: real)
      returns (ghost exitAt: real)
      requires res.Valid() && Accounted() && Staffed() && env.now == start && scan >= 0.0
      requires Covered(magnet.id, coverage) && p.body != porter.body && |pool.items| < pool.capacity
      requires magnet.resKey != "magnet_access" && magnet.resKey != "porter"
      requires "room_311" in held && "magnet_access" in held && magnet.resKey in held
      requires res.count == Seized(Plus(held, "room_311"), magnet.resKey) && res.Free("porter")
      modifies ChosenTech(magnet.id, coverage), ChosenTech(magnet.id, coverage).body, magnet
      modifies env, res`count, res`events, pool, porter, porter.body, p`state, p.body
      modifies stats`counts, stats`magnetMetrics, stats`metricCalls, stats`patientData, stats`scanCounts, stats`finished
      modifies stats.base`magnetStart, stats.base`magnetState, stats.base`magnetBusyTime, stats.base`magnetOccupiedTime
      modifies stats.base`patientsArrived, stats.base`patientsInSystem, stats.base`stateChanges, stats.base`stateCalls
      modifies stats.base`patientLog
      ensures res.Valid() && res.count == held
      ensures res.events == old(res.events) + [Acquired("porter", Some(EgressPriority))]
                                            + [Released("porter")] + [Released(magnet.resKey), Released("magnet_access")]
                                            + [Released("room_311")]
      ensures pool.items == old(pool.items) + [magnet]
      ensures stats.base.stateCalls == old(stats.base.stateCalls) + [StateChange(p.pId, Some(Prepped), Scanning, start),
                                                                     StateChange(p.pId, Some(Scanning), Exited, exitAt)]
      ensures exitAt == start + scan
      ensures stats.base.patientsInSystem ==
                if old(stats.base.patientsInSystem) == 0 then 0 else old(stats.base.patientsInSystem) - 1
    {
      var tech := ChosenTech(magnet.id, coverage);
      exitAt := ScanLeaveRelease(tech, p, magnet, scan, Plus(held, "room_311"), start);
      res.Release("room_311");
      PlusThenMinus(held, "room_311");
    }

    /** Steps 2 to 7 and the release sequence, once room 311 exists: room
        311 is given back last, and every count is as it was. */
    method Serve(p: Patient, d: InpatientDraws, coverage: Option<map<nat, bool>>, ghost start: real)
      returns (ghost scanAt: real, ghost exitAt: real)
      requires res.Valid() && Accounted() && Staffed() && env.now == start
      requires InpatientReady(pool.items, res.count, res.capacity) && |pool.items| <= pool.capacity
      requires Covered(pool.items[0].id, coverage) && p.body != porter.body
      requires d.holdingPrep >= 0.0 && d.bedTransfer >= 0.0 && d.scan >= 0.0
      modifies ChosenTech(pool.items[0].id, coverage), ChosenTech(pool.items[0].id, coverage).body, pool.items[0]
      modifies env, res`count, res`events, pool, porter, porter.body, p`state, p.body
      modifies stats`counts, stats`magnetMetrics, stats`metricCalls, stats`patientData, stats`scanCounts, stats`finished
      modifies stats.base`magnetStart, stats.base`magnetState, stats.base`magnetBusyTime, stats.base`magnetOccupiedTime
      modifies stats.base`patientsArrived, stats.base`patientsInSystem, stats.base`stateChanges, stats.base`stateCalls
      modifies stats.base`patientLog
      ensures res.Valid()
      ensures res.count == old(res.count)
      ensures var key := old(pool.items[0].resKey);
              res.events == old(res.events) + [Acquired("room_311", None)]
                                            + [Acquired("magnet_access", Some(priorityInpatient)),
                                               Acquired(key, Some(priorityInpatient))]
                                            + [Acquired("porter", Some(EgressPriority))]
                                            + [Released("porter")] + [Released(key), Released("magnet_access")]
                                            + [Released("room_311")]
      ensures pool.items == old(pool.items[1..]) + [old(pool.items[0])]
      ensures stats.base.stateCalls == old(stats.base.stateCalls) + [StateChange(p.pId, Some(Arriving), Prepped, start)]
                                       + [StateChange(p.pId, Some(Prepped), Scanning, scanAt),
                                          StateChange(p.pId, Some(Scanning), Exited, exitAt)]
      ensures scanAt == start + d.holdingPrep + d.bedTransfer && exitAt == scanAt + d.scan
      ensures stats.base.patientsInSystem ==
                if old(stats.base.patientsInSystem) == 0 then 0 else old(stats.base.patientsInSystem) - 1
    {
      var magnet := Prepare(p, d.secondSlot, d.holdingPrep, d.bedTransfer, start);
      scanAt := env.now;
      exitAt := ScanAndRelease(p, magnet, d.scan, coverage, old(res.count), scanAt);
    }

    /** `inpatient_workflow`: the arrival is always logged; the rest of the
        path runs only when room 311 exists as a resource. When it runs, the
        patient leaves the system again and every count is restored; when it
        does not, the patient stays counted as in the system. The staff
        manager's coverage flags are read when the scan starts; `coverage` is
        their value then. */
    method Run(p: Patient, d: InpatientDraws, coverage: Option<map<nat, bool>>, ghost start: real)
      returns (served: bool)
      requires res.Valid() && Accounted() && Staffed() && env.now == start && p.body != porter.body
      requires d.holdingPrep >= 0.0 && d.bedTransfer >= 0.0 && d.scan >= 0.0
      requires "room_311" in res.capacity ==>
                 InpatientReady(pool.items, res.count, res.capacity) && |pool.items| <= pool.capacity
                 && Covered(pool.items[0].id, coverage)
      modifies if "room_311" in res.capacity then {ChosenTech(pool.items[0].id, coverage), ChosenTech(pool.items[0].id, coverage).body, pool.items[0]} else {}
      modifies env, res`count, res`events, pool, porter, porter.body, p`state, p`arrivalTime, p.body
      modifies stats`counts, stats`magnetMetrics, stats`metricCalls, stats`patientData, stats`scanCounts, stats`finished
      modifies stats.base`magnetStart, stats.base`magnetState, stats.base`magnetBusyTime, stats.base`magnetOccupiedTime
      modifies stats.base`patientsArrived, stats.base`patientsInSystem, stats.base`stateChanges, stats.base`stateCalls
      modifies stats.base`patientLog
      ensures served <==> "room_311" in res.capacity
      ensures res.Valid() && res.count == old(res.count)
      ensures p.arrivalTime == Some(start)
      ensures !served ==> res.events == old(res.events) && env.now == start && p.state == Some(Arriving)
      ensures !served ==> stats.base.stateCalls == old(stats.base.stateCalls) + [StateChange(p.pId, None, Arriving, start)]
      ensures stats.base.patientsInSystem == if served then old(stats.base.patientsInSystem)
                                             else old(stats.base.patientsInSystem) + 1
    {
      Admit(p);
      if "room_311" !in res.capacity {
        return false;
      }
      var scanAt, exitAt := Serve(p, d, coverage, start);
      served := true;
    }
  }
}
