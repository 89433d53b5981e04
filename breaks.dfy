/** Staff breaks and their cover (src/core/staff_controller.py): every member
    of staff runs a cycle of break blocks; a block holds the single break
    slot, raises the staff member's on-break flag and the cover that role
    needs (the porter at the admin desk, a backup technologist at a scan
    station, one backup unit fewer for prep) and lowers both again at its
    end. The break schedule, the break-room centre and the admin desk come
    from the configuration and are parameters here. */
module Breaks {
  import opened Sim
  import opened HeadlessEntities

  /** The handover at a scan station, at the start and at the end of a scan
      technologist's break, and the wait between two blocks. */
  const Handover: real := 2.0
  const BlockGap: real := 150.0

  /** The key `f"{role}_{idx}"` of `staff_on_break`. */
  datatype StaffKey = StaffKey(role: string, idx: nat)

  /** One member of staff whose breaks are managed. */
  datatype Individual = Individual(role: string, idx: nat, staff: Staff)

  /** The flags the controller shares with the workflows. */
  datatype Flag = OnBreak(key: StaffKey) | ScanCovered(idx: nat) | PorterCoversAdmin

  /** One assignment to a flag, with the time it happened. */
  datatype FlagChange = FlagChange(flag: Flag, value: bool, at: real)

  /** The base of the initial stagger per role; any other role waits 60. */
  function RoleBase(role: string): real {
    if role == "admin" then 30.0
    else if role == "backup" then 60.0
    else if role == "scan" then 90.0
    else if role == "porter" then 120.0
    else 60.0
  }

  /** The initial wait of a break cycle: the role's base plus 20 per index. */
  function StartDelay(role: string, idx: nat): real {
    RoleBase(role) + 20.0 * idx as real
  }

  /** Within a role, later indexes start exactly 20 minutes per index later;
      at index 0 the admin starts first, then the backups, the scan
      technologists and the porter. */
  lemma StartDelayStaggers(role: string, i: nat, j: nat)
    requires i < j
    ensures StartDelay(role, j) - StartDelay(role, i) == 20.0 * (j - i) as real
    ensures StartDelay(role, i) >= 30.0
    ensures StartDelay("admin", 0) < StartDelay("backup", 0) < StartDelay("scan", 0) < StartDelay("porter", 0)
  {
  }

  /** The wait between raising a role's cover and leaving for the break. */
  function Lead(role: string): real {
    if role == "scan" then Handover else 0.0
  }

  /** The time a block of a break of `duration` takes: a scan technologist's
      adds the handover before leaving and the one after returning. */
  function BlockLength(role: string, duration: real): real {
    Lead(role) + duration + Lead(role)
  }

  /** The cover flag a role's break raises, if any, set to `value` at `at`. */
  function CoverFlags(role: string, idx: nat, value: bool, at: real): seq<FlagChange> {
    if role == "admin" then [FlagChange(PorterCoversAdmin, value, at)]
    else if role == "scan" then [FlagChange(ScanCovered(idx), value, at)]
    else []
  }

  /** The flag changes of one block starting at `t`, in order: the on-break
      flag and the role's cover are raised at the start; the on-break flag
      is lowered when the break ends and the cover at the end of the block
      (for a scan technologist, after the return handover). */
  function BlockFlags(role: string, idx: nat, t: real, duration: real): seq<FlagChange> {
    [FlagChange(OnBreak(StaffKey(role, idx)), true, t)] + CoverFlags(role, idx, true, t)
    + [FlagChange(OnBreak(StaffKey(role, idx)), false, t + Lead(role) + duration)]
    + CoverFlags(role, idx, false, t + BlockLength(role, duration))
  }

  /** The resource unit a role's cover holds during a block: the porter for
      the admin, a backup unit for a scan technologist or a backup. */
  function CoverUnit(role: string): Option<string> {
    if role == "admin" then Some("porter")
    else if role == "scan" || role == "backup" then Some("backup_techs")
    else None
  }

  /** The counts with the cover unit, if any, held once more. */
  function Take(count: map<string, nat>, unit: Option<string>): map<string, nat> {
    if unit.Some? then Plus(count, unit.value) else count
  }

  /** The three kinds of flags the controller keeps. */
  datatype FlagState = FlagState(porterCoveringAdmin: bool, scanCoverage: map<nat, bool>, staffOnBreak: map<StaffKey, bool>)

  /** The flags after a block of (`role`, `idx`): the member of staff is off
      break and the role's cover is lowered; nothing else changes. */
  function AfterBlock(f: FlagState, role: string, idx: nat): FlagState {
    FlagState(role != "admin" && f.porterCoveringAdmin,
              if role == "scan" then f.scanCoverage[idx := false] else f.scanCoverage,
              f.staffOnBreak[StaffKey(role, idx) := false])
  }

  /** A second block of the same member of staff leaves the flags as the
      first did. */
  lemma AfterBlockTwice(f: FlagState, role: string, idx: nat)
    ensures AfterBlock(AfterBlock(f, role, idx), role, idx) == AfterBlock(f, role, idx)
  {
  }

  /** The on-break flag of (`role`, `idx`) set to `value`. */
  function SetOnBreak(f: FlagState, role: string, idx: nat, value: bool): FlagState {
    f.(staffOnBreak := f.staffOnBreak[StaffKey(role, idx) := value])
  }

  /** The role's cover flag, if it has one, set to `value`. */
  function SetCover(f: FlagState, role: string, idx: nat, value: bool): FlagState {
    if role == "admin" then f.(porterCoveringAdmin := value)
    else if role == "scan" then f.(scanCoverage := f.scanCoverage[idx := value])
    else f
  }

  /** Raising the on-break flag and the cover, then lowering both, leaves
      the flags as `AfterBlock` says. */
  lemma RaiseThenLower(f: FlagState, role: string, idx: nat)
    ensures SetCover(SetOnBreak(SetCover(SetOnBreak(f, role, idx, true), role, idx, true), role, idx, false), role, idx, false)
            == AfterBlock(f, role, idx)
  {
  }

  /** The request for the cover unit: the porter at the highest priority
      (-1); the backup pool takes no priority. */
  function CoverSeize(role: string): seq<ResEvent> {
    if role == "admin" then [Acquired("porter", Some(-1))]
    else if CoverUnit(role).Some? then [Acquired(CoverUnit(role).value, None)]
    else []
  }

  function CoverRelease(role: string): seq<ResEvent> {
    if CoverUnit(role).Some? then [Released(CoverUnit(role).value)] else []
  }

  /** A block's changes appended one step at a time to a log. */
  lemma AppendBlockFlags(log: seq<FlagChange>, role: string, idx: nat, t: real, duration: real)
    ensures log + BlockFlags(role, idx, t, duration)
            == log + [FlagChange(OnBreak(StaffKey(role, idx)), true, t)] + CoverFlags(role, idx, true, t)
               + [FlagChange(OnBreak(StaffKey(role, idx)), false, t + Lead(role) + duration)]
               + CoverFlags(role, idx, false, t + BlockLength(role, duration))
  {
  }

  /** Matching pairs: the first half of `b` raises distinct flags at `t`,
      and the second half lowers the same flags in the same order, none
      earlier than it was raised. */
  ghost predicate Paired(b: seq<FlagChange>, t: real) {
    var h := |b| / 2;
    && |b| == 2 * h && h >= 1
    && (forall i :: 0 <= i < h ==> b[i].value && b[i].at == t)
    && (forall i :: h <= i < |b| ==> !b[i].value && b[i].flag == b[i - h].flag && b[i].at >= t)
    && (forall i, j :: 0 <= i < j < h ==> b[i].flag != b[j].flag)
  }

  /** Every block sets and clears its flags in matching pairs, the on-break
      flag first; a scan technologist's cover outlasts the break by the
      handover. */
  lemma BlockFlagsPaired(role: string, idx: nat, t: real, duration: real)
    requires duration >= 0.0
    ensures Paired(BlockFlags(role, idx, t, duration), t)
    ensures BlockFlags(role, idx, t, duration)[0].flag == OnBreak(StaffKey(role, idx))
    ensures role == "scan" ==>
              BlockFlags(role, idx, t, duration)[3].at == BlockFlags(role, idx, t, duration)[2].at + Handover
  {
    var b := BlockFlags(role, idx, t, duration);
    if role == "admin" || role == "scan" {
      assert |b| == 4 && b[0].flag != b[1].flag;
    } else {
      assert |b| == 2;
    }
  }

  /** The time a cycle's blocks take, each followed by the gap. */
  function CycleTime(role: string, schedule: seq<real>): real {
    if |schedule| == 0 then 0.0
    else CycleTime(role, schedule[..|schedule| - 1]) + BlockLength(role, schedule[|schedule| - 1]) + BlockGap
  }

  /** The flag changes of a cycle whose first block starts at `t`: each
      block starts the gap after the previous one ended. */
  function CycleFlags(role: string, idx: nat, t: real, schedule: seq<real>): seq<FlagChange> {
    if |schedule| == 0 then []
    else
      var prefix := schedule[..|schedule| - 1];
      CycleFlags(role, idx, t, prefix) + BlockFlags(role, idx, t + CycleTime(role, prefix), schedule[|schedule| - 1])
  }

  /** One more block of the schedule, appended to a log, starts the gap
      after the blocks before it. */
  lemma CycleStep(log: seq<FlagChange>, role: string, idx: nat, t: real, schedule: seq<real>, k: nat)
    requires k < |schedule|
    ensures log + CycleFlags(role, idx, t, schedule[..k])
              + BlockFlags(role, idx, t + CycleTime(role, schedule[..k]), schedule[k])
            == log + CycleFlags(role, idx, t, schedule[..k + 1])
    ensures CycleTime(role, schedule[..k + 1]) == CycleTime(role, schedule[..k]) + BlockLength(role, schedule[k]) + BlockGap
  {
    assert schedule[..k + 1][..k] == schedule[..k];
  }

  /** Successive blocks are separated by the gap: the k-th block starts after
      the k earlier blocks and as many gaps, so a cycle of non-negative
      breaks takes at least the gap per block. */
  lemma {:induction false} CycleTimeBound(role: string, schedule: seq<real>)
    requires forall i :: 0 <= i < |schedule| ==> schedule[i] >= 0.0
    ensures CycleTime(role, schedule) >= BlockGap * |schedule| as real
  {
    if |schedule| > 0 {
      var prefix := schedule[..|schedule| - 1];
      assert forall i :: 0 <= i < |prefix| ==> prefix[i] == schedule[i];
      CycleTimeBound(role, prefix);
    }
  }

  /** `StaffManager`: the break flags and the single break slot. */
  class StaffManager {
    const env: Env
    const res: ResourceTable
    const porter: Staff
    const admin: Staff
    const backups: seq<Staff>
    const scans: seq<Staff>
    /** The break room: one person at a time. */
    const breakSlot: ResourceTable
    const breakRoomCenter: Pos
    const adminDesk: Pos
    var porterCoveringAdmin: bool
    var scanCoverage: map<nat, bool>
    var staffOnBreak: map<StaffKey, bool>
    /** Every assignment to the three kinds of flags, in order. */
    ghost var flagLog: seq<FlagChange>

    function Flags(): FlagState
      reads this`porterCoveringAdmin, this`scanCoverage, this`staffOnBreak
    {
      FlagState(porterCoveringAdmin, scanCoverage, staffOnBreak)
    }

    function Roster(): seq<Staff> {
      [porter, admin] + backups + scans
    }

    /** The managed staff are distinct people with distinct bodies, each with
        a home station. */
    ghost predicate Valid() {
      && (forall i, j :: 0 <= i < j < |Roster()| ==> Roster()[i] != Roster()[j] && Roster()[i].body != Roster()[j].body)
      && (forall i :: 0 <= i < |Roster()| ==> Roster()[i].body.home.Some?)
    }

    /** `staff` is the member of staff whose cycle is (`role`, `idx`). */
    ghost predicate Matches(role: string, idx: nat, staff: Staff) {
      if role == "porter" then idx == 0 && staff == porter
      else if role == "admin" then idx == 0 && staff == admin
      else if role == "backup" then idx < |backups| && staff == backups[idx]
      else if role == "scan" then idx < |scans| && staff == scans[idx]
      else false
    }

    /** The backup technologist who covers scan station `idx`. */
    function CoverTech(idx: nat): Staff
      requires |backups| > 0
    {
      backups[idx % |backups|]
    }

    /** What a block of (`role`, `idx`) needs of the staff: the member of
        staff has a home, and whoever covers them is someone else. */
    ghost predicate Apart(role: string, idx: nat, staff: Staff) {
      && staff.body.home.Some?
      && (role == "admin" ==> porter.body != staff.body)
      && (role == "scan" ==> |backups| > 0 && CoverTech(idx) != staff && CoverTech(idx).body != staff.body)
    }

    /** Distinct staff give every cycle a cover that is someone else. */
    lemma ValidApart(role: string, idx: nat, staff: Staff)
      requires Valid() && Matches(role, idx, staff) && (role == "scan" ==> |backups| > 0)
      ensures Apart(role, idx, staff)
    {
      assert Roster()[0] == porter && Roster()[1] == admin;
      if role == "backup" {
        assert Roster()[2 + idx] == staff;
      } else if role == "scan" {
        assert Roster()[2 + |backups| + idx] == staff && Roster()[2 + idx % |backups|] == CoverTech(idx);
      }
    }

    /** Everything on the staff side a block may move or lock. */
    ghost function BlockFrame(role: string, idx: nat, staff: Staff): set<object> {
      {staff.body}
      + (if role == "admin" then {porter.body} else {})
      + (if role == "scan" && |backups| > 0 then {CoverTech(idx), CoverTech(idx).body} else {})
    }

    /** The flags start lowered and no one is on break; the break slot is a
        fresh resource of capacity 1. */
    constructor (env: Env, res: ResourceTable, porter: Staff, admin: Staff, backups: seq<Staff>, scans: seq<Staff>,
                 breakRoomCenter: Pos, adminDesk: Pos)
      ensures this.env == env && this.res == res && this.porter == porter && this.admin == admin
      ensures this.backups == backups && this.scans == scans
      ensures this.breakRoomCenter == breakRoomCenter && this.adminDesk == adminDesk
      ensures !porterCoveringAdmin && scanCoverage == map[] && staffOnBreak == map[] && flagLog == []
      ensures fresh(breakSlot) && breakSlot.Valid() && breakSlot.capacity == map["break_slot" := 1]
      ensures breakSlot.Free("break_slot")
    {
      this.env := env;
      this.res := res;
      this.porter := porter;
      this.admin := admin;
      this.backups := backups;
      this.scans := scans;
      this.breakRoomCenter := breakRoomCenter;
      this.adminDesk := adminDesk;
      porterCoveringAdmin := false;
      scanCoverage := map[];
      staffOnBreak := map[];
      flagLog := [];
      breakSlot := new ResourceTable(map["break_slot" := 1]);
    }

    /** `manage_breaks`: the porter, the admin, each backup and each scan
        technologist, in that order, each under a distinct key, each the
        member of staff its cycle is about. */
    method ManageBreaks() returns (individuals: seq<Individual>)
      ensures |individuals| == 2 + |backups| + |scans|
      ensures individuals[0] == Individual("porter", 0, porter) && individuals[1] == Individual("admin", 0, admin)
      ensures forall k :: 2 <= k < 2 + |backups| ==> individuals[k] == Individual("backup", k - 2, backups[k - 2])
      ensures forall k :: 2 + |backups| <= k < |individuals| ==>
                individuals[k] == Individual("scan", k - 2 - |backups|, scans[k - 2 - |backups|])
      ensures forall i :: 0 <= i < |individuals| ==>
                Matches(individuals[i].role, individuals[i].idx, individuals[i].staff)
      ensures forall i, j :: 0 <= i < j < |individuals| ==>
                StaffKey(individuals[i].role, individuals[i].idx) != StaffKey(individuals[j].role, individuals[j].idx)
    {
      individuals := [Individual("porter", 0, porter), Individual("admin", 0, admin)];
      for i := 0 to |backups|
        invariant |individuals| == 2 + i
        invariant individuals[0] == Individual("porter", 0, porter) && individuals[1] == Individual("admin", 0, admin)
        invariant forall k :: 2 <= k < 2 + i ==> individuals[k] == Individual("backup", k - 2, backups[k - 2])
      {
        individuals := individuals + [Individual("backup", i, backups[i])];
      }
      for i := 0 to |scans|
        invariant |individuals| == 2 + |backups| + i
        invariant individuals[0] == Individual("porter", 0, porter) && individuals[1] == Individual("admin", 0, admin)
        invariant forall k :: 2 <= k < 2 + |backups| ==> individuals[k] == Individual("backup", k - 2, backups[k - 2])
        invariant forall k :: 2 + |backups| <= k < |individuals| ==>
                    individuals[k] == Individual("scan", k - 2 - |backups|, scans[k - 2 - |backups|])
      {
        individuals := individuals + [Individual("scan", i, scans[i])];
      }
    }

    /** The break slot is taken (nobody else can start a block until it is
        given back) and the on-break flag is raised. */
    method BeginBlock(role: string, idx: nat)
      requires breakSlot.Valid() && breakSlot.Free("break_slot") && breakSlot.capacity["break_slot"] == 1
      modifies breakSlot`count, breakSlot`events, this`staffOnBreak, this`flagLog
      ensures breakSlot.Valid() && !breakSlot.Free("break_slot")
      ensures breakSlot.count == Plus(old(breakSlot.count), "break_slot")
      ensures breakSlot.events == old(breakSlot.events) + [Acquired("break_slot", None)]
      ensures staffOnBreak == old(staffOnBreak)[StaffKey(role, idx) := true]
      ensures Flags() == SetOnBreak(old(Flags()), role, idx, true)
      ensures flagLog == old(flagLog) + [FlagChange(OnBreak(StaffKey(role, idx)), true, env.now)]
    {
      breakSlot.Acquire("break_slot", None);
      staffOnBreak := staffOnBreak[StaffKey(role, idx) := true];
      flagLog := flagLog + [FlagChange(OnBreak(StaffKey(role, idx)), true, env.now)];
    }

    /** Admin cover: the porter is flagged as covering the desk, is seized at
        the highest priority (-1) and moves to the desk. */
    method CoverAdmin()
      requires res.Valid() && res.Free("porter")
      modifies this`porterCoveringAdmin, this`flagLog, res`count, res`events, porter.body
      ensures res.Valid() && res.count == old(res.count)["porter" := old(res.count)["porter"] + 1]
      ensures res.events == old(res.events) + [Acquired("porter", Some(-1))]
      ensures porterCoveringAdmin && flagLog == old(flagLog) + [FlagChange(PorterCoversAdmin, true, env.now)]
      ensures porter.body.x == adminDesk.x && porter.body.y == adminDesk.y
    {
      porterCoveringAdmin := true;
      flagLog := flagLog + [FlagChange(PorterCoversAdmin, true, env.now)];
      res.Acquire("porter", Some(-1));
      porter.body.CoverPosition(adminDesk);
    }

    /** Scan cover: station `idx` is flagged as covered, a backup unit is
        seized, the covering backup technologist is locked busy and moves to
        the scan technologist's station; the handover follows. */
    method CoverScan(idx: nat, station: Pos)
      requires res.Valid() && res.Free("backup_techs") && |backups| > 0
      modifies this`scanCoverage, this`flagLog, res`count, res`events, CoverTech(idx), CoverTech(idx).body, env
      ensures res.Valid() && res.count == old(res.count)["backup_techs" := old(res.count)["backup_techs"] + 1]
      ensures res.events == old(res.events) + [Acquired("backup_techs", None)]
      ensures scanCoverage == old(scanCoverage)[idx := true]
      ensures flagLog == old(flagLog) + [FlagChange(ScanCovered(idx), true, old(env.now))]
      ensures CoverTech(idx).busy && CoverTech(idx).busyTrace == old(CoverTech(idx).busyTrace) + [true]
      ensures CoverTech(idx).body.x == station.x && CoverTech(idx).body.y == station.y
      ensures env.now == old(env.now) + Handover
    {
      scanCoverage := scanCoverage[idx := true];
      flagLog := flagLog + [FlagChange(ScanCovered(idx), true, env.now)];
      var tech := CoverTech(idx);
      res.Acquire("backup_techs", None);
      tech.SetBusy(true);
      tech.body.CoverPosition(station);
      env.Timeout(Handover);
    }

    /** The break itself: to the break room for `duration`, then the
        on-break flag is lowered and the member of staff goes home. */
    method TakeBreak(role: string, idx: nat, staff: Staff, duration: real)
      requires duration >= 0.0
      modifies staff.body, env, this`staffOnBreak, this`flagLog
      ensures env.now == old(env.now) + duration
      ensures staffOnBreak == old(staffOnBreak)[StaffKey(role, idx) := false]
      ensures Flags() == SetOnBreak(old(Flags()), role, idx, false)
      ensures flagLog == old(flagLog) + [FlagChange(OnBreak(StaffKey(role, idx)), false, env.now)]
      ensures staff.body.home.Some? ==> staff.body.x == staff.body.home.value.x && staff.body.y == staff.body.home.value.y
    {
      staff.body.GoToBreak(breakRoomCenter);
      env.Timeout(duration);
      staffOnBreak := staffOnBreak[StaffKey(role, idx) := false];
      flagLog := flagLog + [FlagChange(OnBreak(StaffKey(role, idx)), false, env.now)];
      staff.body.ReturnHome();
    }

    /** The admin is back: the porter's cover flag is lowered, the porter
        released and sent home. */
    method UncoverAdmin()
      requires res.Valid() && "porter" in res.count && res.count["porter"] > 0
      modifies this`porterCoveringAdmin, this`flagLog, res`count, res`events, porter.body
      ensures res.Valid() && res.count == old(res.count)["porter" := old(res.count)["porter"] - 1]
      ensures res.events == old(res.events) + [Released("porter")]
      ensures !porterCoveringAdmin && flagLog == old(flagLog) + [FlagChange(PorterCoversAdmin, false, env.now)]
      ensures porter.body.home.Some? ==> porter.body.x == porter.body.home.value.x && porter.body.y == porter.body.home.value.y
    {
      porterCoveringAdmin := false;
      flagLog := flagLog + [FlagChange(PorterCoversAdmin, false, env.now)];
      res.Release("porter");
      porter.body.ReturnHome();
    }

    /** The scan technologist is back: after the return handover the station
        is no longer flagged as covered, and the same covering technologist
        goes home, is unlocked and its unit released. */
    method UncoverScan(idx: nat)
      requires res.Valid() && "backup_techs" in res.count && res.count["backup_techs"] > 0 && |backups| > 0
      modifies this`scanCoverage, this`flagLog, res`count, res`events, CoverTech(idx), CoverTech(idx).body, env
      ensures res.Valid() && res.count == old(res.count)["backup_techs" := old(res.count)["backup_techs"] - 1]
      ensures res.events == old(res.events) + [Released("backup_techs")]
      ensures scanCoverage == old(scanCoverage)[idx := false]
      ensures env.now == old(env.now) + Handover
      ensures flagLog == old(flagLog) + [FlagChange(ScanCovered(idx), false, env.now)]
      ensures !CoverTech(idx).busy && CoverTech(idx).busyTrace == old(CoverTech(idx).busyTrace) + [false]
      ensures CoverTech(idx).body.home.Some? ==>
                CoverTech(idx).body.x == CoverTech(idx).body.home.value.x && CoverTech(idx).body.y == CoverTech(idx).body.home.value.y
    {
      env.Timeout(Handover);
      scanCoverage := scanCoverage[idx := false];
      flagLog := flagLog + [FlagChange(ScanCovered(idx), false, env.now)];
      var tech := CoverTech(idx);
      tech.body.ReturnHome();
      tech.SetBusy(false);
      res.Release("backup_techs");
    }

    /** The break slot is given back. */
    method EndBlock(ghost held: map<string, nat>)
      requires breakSlot.Valid() && "break_slot" in held && breakSlot.count == Plus(held, "break_slot")
      modifies breakSlot`count, breakSlot`events
      ensures breakSlot.Valid() && breakSlot.count == held
      ensures breakSlot.events == old(breakSlot.events) + [Released("break_slot")]
    {
      breakSlot.Release("break_slot");
      PlusThenMinus(held, "break_slot");
    }

    /** The role's cover is raised: the porter at the desk for the admin,
        the covering backup technologist at the station for a scan
        technologist, one backup unit fewer for a backup. */
    method Cover(role: string, idx: nat, staff: Staff)
      requires res.Valid() && (CoverUnit(role).Some? ==> res.Free(CoverUnit(role).value))
      requires role == "scan" ==> |backups| > 0 && staff.body.home.Some?
      modifies this`porterCoveringAdmin, this`scanCoverage, this`flagLog, res`count, res`events, env
      modifies (if role == "admin" then {porter.body} else {})
      modifies (if role == "scan" && |backups| > 0 then {CoverTech(idx), CoverTech(idx).body} else {})
      ensures res.Valid() && res.count == Take(old(res.count), CoverUnit(role))
      ensures res.events == old(res.events) + CoverSeize(role)
      ensures flagLog == old(flagLog) + CoverFlags(role, idx, true, old(env.now))
      ensures env.now == old(env.now) + Lead(role)
      ensures Flags() == SetCover(old(Flags()), role, idx, true)
      ensures role == "scan" ==> CoverTech(idx).busyTrace == old(CoverTech(idx).busyTrace) + [true]
    {
      if role == "admin" {
        CoverAdmin();
      } else if role == "scan" {
        CoverScan(idx, staff.body.home.value);
      } else if role == "backup" {
        res.Acquire("backup_techs", None);
      }
    }

    /** The role's cover is lowered and its unit given back, restoring the
        counts `held` from before the block. */
    method Uncover(role: string, idx: nat, ghost held: map<string, nat>)
      requires res.Valid() && res.count == Take(held, CoverUnit(role))
      requires CoverUnit(role).Some? ==> CoverUnit(role).value in held
      requires role == "scan" ==> |backups| > 0
      modifies this`porterCoveringAdmin, this`scanCoverage, this`flagLog, res`count, res`events, env
      modifies (if role == "admin" then {porter.body} else {})
      modifies (if role == "scan" && |backups| > 0 then {CoverTech(idx), CoverTech(idx).body} else {})
      ensures res.Valid() && res.count == held
      ensures res.events == old(res.events) + CoverRelease(role)
      ensures env.now == old(env.now) + Lead(role)
      ensures flagLog == old(flagLog) + CoverFlags(role, idx, false, env.now)
      ensures Flags() == SetCover(old(Flags()), role, idx, false)
      ensures role == "scan" ==> CoverTech(idx).busyTrace == old(CoverTech(idx).busyTrace) + [false]
    {
      if role == "admin" {
        UncoverAdmin();
      } else if role == "scan" {
        UncoverScan(idx);
      } else if role == "backup" {
        res.Release("backup_techs");
      }
    }

    /** The middle of a block: the cover raised, the break taken, the cover
        lowered; the member of staff ends at home and every count is as
        before. */
    method CoverAndBreak(role: string, idx: nat, staff: Staff, duration: real, ghost start: real)
      requires Apart(role, idx, staff) && env.now == start && duration >= 0.0
      requires res.Valid() && (CoverUnit(role).Some? ==> res.Free(CoverUnit(role).value))
      modifies this`porterCoveringAdmin, this`scanCoverage, this`staffOnBreak, this`flagLog
      modifies env, res`count, res`events, BlockFrame(role, idx, staff)
      ensures res.Valid() && res.count == old(res.count)
      ensures res.events == old(res.events) + CoverSeize(role) + CoverRelease(role)
      ensures flagLog == old(flagLog) + CoverFlags(role, idx, true, start)
                         + [FlagChange(OnBreak(StaffKey(role, idx)), false, start + Lead(role) + duration)]
                         + CoverFlags(role, idx, false, start + BlockLength(role, duration))
      ensures env.now == start + BlockLength(role, duration)
      ensures Flags() == SetCover(SetOnBreak(SetCover(old(Flags()), role, idx, true), role, idx, false), role, idx, false)
      ensures role == "scan" ==> CoverTech(idx).busyTrace == old(CoverTech(idx).busyTrace) + [true, false]
      ensures staff.body.home.Some? && staff.body.x == staff.body.home.value.x && staff.body.y == staff.body.home.value.y
    {
      ghost var held := res.count;
      Cover(role, idx, staff);
      TakeBreak(role, idx, staff, duration);
      Uncover(role, idx, held);
    }

    /** One break block (the body of the `for` loop of `staff_break_cycle`):
        the break slot is held throughout; the flags are raised and lowered
        in matching pairs; the cover unit is taken and given back, and every
        count is restored; the same covering technologist is locked and
        unlocked; the member of staff ends at home. */
    method BreakBlock(role: string, idx: nat, staff: Staff, duration: real, ghost start: real)
      requires Apart(role, idx, staff) && env.now == start && duration >= 0.0
      requires breakSlot.Valid() && breakSlot.Free("break_slot") && breakSlot.capacity["break_slot"] == 1
      requires res.Valid() && (CoverUnit(role).Some? ==> res.Free(CoverUnit(role).value)) && res != breakSlot
      modifies this`porterCoveringAdmin, this`scanCoverage, this`staffOnBreak, this`flagLog
      modifies env, res`count, res`events, breakSlot`count, breakSlot`events, BlockFrame(role, idx, staff)
      ensures breakSlot.Valid() && breakSlot.count == old(breakSlot.count)
      ensures breakSlot.events == old(breakSlot.events) + [Acquired("break_slot", None)] + [Released("break_slot")]
      ensures res.Valid() && res.count == old(res.count)
      ensures res.events == old(res.events) + CoverSeize(role) + CoverRelease(role)
      ensures flagLog == old(flagLog) + BlockFlags(role, idx, start, duration)
      ensures env.now == start + BlockLength(role, duration)
      ensures Flags() == AfterBlock(old(Flags()), role, idx)
      ensures role == "scan" ==> CoverTech(idx).busyTrace == old(CoverTech(idx).busyTrace) + [true, false]
      ensures staff.body.home.Some? && staff.body.x == staff.body.home.value.x && staff.body.y == staff.body.home.value.y
    {
      ghost var slots := breakSlot.count;
      AppendBlockFlags(flagLog, role, idx, start, duration);
      RaiseThenLower(Flags(), role, idx);
      BeginBlock(role, idx);
      CoverAndBreak(role, idx, staff, duration, start);
      EndBlock(slots);
    }

    /** `staff_break_cycle`: after the initial stagger, one block per entry
        of the schedule, each followed by the gap. The log holds the blocks'
        flag changes at their times; every count and the break slot are as
        before; after at least one block the member of staff is off break
        and the role's cover is lowered. */
    method BreakCycle(role: string, idx: nat, staff: Staff, schedule: seq<real>, ghost start: real)
      requires Apart(role, idx, staff) && env.now == start
      requires forall k :: 0 <= k < |schedule| ==> schedule[k] >= 0.0
      requires breakSlot.Valid() && breakSlot.Free("break_slot") && breakSlot.capacity["break_slot"] == 1
      requires res.Valid() && (CoverUnit(role).Some? ==> res.Free(CoverUnit(role).value)) && res != breakSlot
      modifies this`porterCoveringAdmin, this`scanCoverage, this`staffOnBreak, this`flagLog
      modifies env, res`count, res`events, breakSlot`count, breakSlot`events, BlockFrame(role, idx, staff)
      ensures env.now == start + StartDelay(role, idx) + CycleTime(role, schedule)
      ensures flagLog == old(flagLog) + CycleFlags(role, idx, start + StartDelay(role, idx), schedule)
      ensures res.Valid() && res.count == old(res.count)
      ensures breakSlot.Valid() && breakSlot.count == old(breakSlot.count)
      ensures Flags() == if |schedule| == 0 then old(Flags()) else AfterBlock(old(Flags()), role, idx)
    {
      env.Timeout(StartDelay(role, idx));
      ghost var t0 := env.now;
      for k := 0 to |schedule|
        invariant env.now == t0 + CycleTime(role, schedule[..k])
        invariant flagLog == old(flagLog) + CycleFlags(role, idx, t0, schedule[..k])
        invariant res.Valid() && res.count == old(res.count)
        invariant breakSlot.Valid() && breakSlot.count == old(breakSlot.count)
        invariant Flags() == if k == 0 then old(Flags()) else AfterBlock(old(Flags()), role, idx)
      {
        CycleStep(old(flagLog), role, idx, t0, schedule, k);
        if k > 0 {
          AfterBlockTwice(old(Flags()), role, idx);
        }
        BreakBlock(role, idx, staff, schedule[k], env.now);
        env.Timeout(BlockGap);
      }
      assert schedule[..|schedule|] == schedule;
    }
  }
}
