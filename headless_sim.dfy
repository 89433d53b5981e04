/** The headless kernel (src/core/headless.py): the resources and magnet
    pool it sets up, the staff it creates, the free-room helpers, the
    per-minute occupancy monitor and the overtime loop that lets the last
    patients leave. */
module HeadlessSim {
  import opened Sim
  import opened HeadlessEntities
  import opened Tracker
  import opened Aggregator
  import opened OutpatientFlow
  import opened Breaks

  /** The extra time the overtime loop allows after the shift. */
  const OvertimeLimit: real := 300.0

  /** The capacities of the resources dict: staff pools from the staffing
      counts, two units of magnet access, single rooms and magnets, and room
      311 from the configuration (2 when it is not configured). */
  function Capacities(porters: nat, backups: nat, scanTechs: nat, admins: nat, room311: Option<nat>): map<string, nat> {
    map["porter" := porters, "backup_techs" := backups, "scan_techs" := scanTechs, "admin_ta" := admins,
        "magnet_access" := 2, "change_1" := 1, "change_2" := 1, "change_3" := 1,
        "washroom_1" := 1, "washroom_2" := 1, "holding_room" := 1, "room_311" := room311.GetOr(2),
        "prep_1" := 1, "prep_2" := 1, "magnet_3t_res" := 1, "magnet_15t_res" := 1]
  }

  /** The buckets of the aggregator's occupied minutes the monitor adds to. */
  const MonitoredBuckets: set<string> :=
    {"waiting_room", "change_rooms", "washrooms", "prep_rooms", "room_311", "magnet_3t", "magnet_15t"}

  /** The units in use that one tick adds to `bucket`: the three change
      rooms together, both washrooms, both prep rooms, room 311 and each
      magnet on its own; a resource that does not exist adds nothing, and
      any other bucket gets nothing. */
  function Sample(count: map<string, nat>, bucket: string): nat {
    if bucket == "waiting_room" then MapGet(count, "waiting_room", 0)
    else if bucket == "change_rooms" then MapGet(count, "change_1", 0) + MapGet(count, "change_2", 0) + MapGet(count, "change_3", 0)
    else if bucket == "washrooms" then MapGet(count, "washroom_1", 0) + MapGet(count, "washroom_2", 0)
    else if bucket == "prep_rooms" then MapGet(count, "prep_1", 0) + MapGet(count, "prep_2", 0)
    else if bucket == "room_311" then MapGet(count, "room_311", 0)
    else if bucket == "magnet_3t" then MapGet(count, "magnet_3t_res", 0)
    else if bucket == "magnet_15t" then MapGet(count, "magnet_15t_res", 0)
    else 0
  }

  /** With every count within the kernel's capacities, a tick adds at most
      the bucket's number of rooms: 3 change rooms, 2 washrooms, 2 prep
      rooms, room 311's capacity, 1 per magnet; the waiting room is not a
      resource of the kernel and adds nothing. */
  lemma SampleWithinCapacity(count: map<string, nat>, porters: nat, backups: nat, scanTechs: nat, admins: nat,
                             room311: Option<nat>)
    requires count.Keys == Capacities(porters, backups, scanTechs, admins, room311).Keys
    requires forall k :: k in count ==> count[k] <= Capacities(porters, backups, scanTechs, admins, room311)[k]
    ensures Sample(count, "change_rooms") <= 3 && Sample(count, "washrooms") <= 2 && Sample(count, "prep_rooms") <= 2
    ensures Sample(count, "room_311") <= room311.GetOr(2)
    ensures Sample(count, "magnet_3t") <= 1 && Sample(count, "magnet_15t") <= 1
    ensures Sample(count, "waiting_room") == 0
  {
    var caps := Capacities(porters, backups, scanTechs, admins, room311);
    assert caps["change_1"] == 1 && caps["change_2"] == 1 && caps["change_3"] == 1;
    assert caps["washroom_1"] == 1 && caps["washroom_2"] == 1 && caps["prep_1"] == 1 && caps["prep_2"] == 1;
    assert caps["room_311"] == room311.GetOr(2) && caps["magnet_3t_res"] == 1 && caps["magnet_15t_res"] == 1;
    assert "waiting_room" !in caps;
  }

  /** `ResourceMonitor`: samples the resources every minute. */
  class ResourceMonitor {
    const env: Env
    const res: ResourceTable
    const stats: MetricAggregator
    /** The monitor's own accumulators, one per resource key and magnet. */
    var occupiedMinutes: map<string, real>

    /** The monitor's own accumulators start at zero for every key of the
        resources dict and for both magnets. */
    constructor (env: Env, res: ResourceTable, stats: MetricAggregator, resourceKeys: set<string>)
      ensures this.env == env && this.res == res && this.stats == stats
      ensures occupiedMinutes.Keys == resourceKeys + {"magnet_3t", "magnet_15t"}
      ensures forall k :: k in occupiedMinutes ==> occupiedMinutes[k] == 0.0
    {
      this.env := env;
      this.res := res;
      this.stats := stats;
      occupiedMinutes := (map k | k in resourceKeys :: 0.0)["magnet_3t" := 0.0]["magnet_15t" := 0.0];
    }

    /** One minute of `run`: the minute passes, then every monitored bucket
        of the aggregator grows by the units in use, and nothing else
        changes, the monitor's own accumulators included. */
    method Tick()
      requires MonitoredBuckets <= stats.occupiedMinutes.Keys
      modifies env, stats`occupiedMinutes
      ensures env.now == old(env.now) + 1.0
      ensures stats.occupiedMinutes == Accumulated(old(stats.occupiedMinutes), res.count, 1)
      ensures occupiedMinutes == old(occupiedMinutes)
    {
      env.Timeout(1.0);
      AddSamplesAccumulates(stats.occupiedMinutes, res.count);
      stats.occupiedMinutes := AddSamples(stats.occupiedMinutes, res.count);
    }

    /** `n` minutes of `run` while the counts stay as they are. */
    method Ticks(n: nat)
      requires MonitoredBuckets <= stats.occupiedMinutes.Keys
      modifies env, stats`occupiedMinutes
      ensures env.now == old(env.now) + n as real
      ensures stats.occupiedMinutes == Accumulated(old(stats.occupiedMinutes), res.count, n)
    {
      for i := 0 to n
        invariant env.now == old(env.now) + i as real
        invariant stats.occupiedMinutes == Accumulated(old(stats.occupiedMinutes), res.count, i)
      {
        AccumulatedStep(old(stats.occupiedMinutes), res.count, i);
        Tick();
      }
    }
  }

  /** The buckets after `minutes` samples of the same counts. */
  function Accumulated(m: map<string, real>, count: map<string, nat>, minutes: nat): (r: map<string, real>)
    ensures r.Keys == m.Keys
  {
    map b | b in m :: m[b] + (minutes * Sample(count, b)) as real
  }

  /** One more sample after `i` gives `i + 1` samples. */
  lemma AccumulatedStep(m: map<string, real>, count: map<string, nat>, i: nat)
    ensures Accumulated(Accumulated(m, count, i), count, 1) == Accumulated(m, count, i + 1)
  {
    var a := Accumulated(Accumulated(m, count, i), count, 1);
    forall b | b in m
      ensures a[b] == Accumulated(m, count, i + 1)[b]
    {
      assert (i * Sample(count, b)) as real + Sample(count, b) as real == ((i + 1) * Sample(count, b)) as real;
    }
  }

  /** The bucket updates of one tick, in the order the monitor makes them:
      the waiting room only when it is a resource, the three room groups
      always (a missing room counts 0), room 311 and each magnet only when
      it is a resource. */
  function AddSamples(m: map<string, real>, c: map<string, nat>): map<string, real>
    requires MonitoredBuckets <= m.Keys
  {
    var m1 := if "waiting_room" in c then m["waiting_room" := m["waiting_room"] + c["waiting_room"] as real] else m;
    var m2 := m1["change_rooms" := m1["change_rooms"] + (MapGet(c, "change_1", 0) + MapGet(c, "change_2", 0) + MapGet(c, "change_3", 0)) as real];
    var m3 := m2["washrooms" := m2["washrooms"] + (MapGet(c, "washroom_1", 0) + MapGet(c, "washroom_2", 0)) as real];
    var m4 := m3["prep_rooms" := m3["prep_rooms"] + (MapGet(c, "prep_1", 0) + MapGet(c, "prep_2", 0)) as real];
    var m5 := if "room_311" in c then m4["room_311" := m4["room_311"] + c["room_311"] as real] else m4;
    var m6 := if "magnet_3t_res" in c then m5["magnet_3t" := m5["magnet_3t"] + c["magnet_3t_res"] as real] else m5;
    if "magnet_15t_res" in c then m6["magnet_15t" := m6["magnet_15t"] + c["magnet_15t_res"] as real] else m6
  }

  /** The monitor's updates add exactly one sample to every bucket. */
  lemma AddSamplesAccumulates(m: map<string, real>, c: map<string, nat>)
    requires MonitoredBuckets <= m.Keys
    ensures AddSamples(m, c) == Accumulated(m, c, 1)
  {
    forall b | b in m
      ensures AddSamples(m, c)[b] == Accumulated(m, c, 1)[b]
    {
      AddSamplesAt(m, c, b);
    }
  }

  /** One bucket after the monitor's updates. */
  lemma AddSamplesAt(m: map<string, real>, c: map<string, nat>, b: string)
    requires MonitoredBuckets <= m.Keys && b in m
    ensures AddSamples(m, c)[b] == m[b] + Sample(c, b) as real
  {
    if b == "waiting_room" || b == "change_rooms" || b == "washrooms" || b == "prep_rooms" {
    } else if b == "room_311" || b == "magnet_3t" || b == "magnet_15t" {
    } else {
      assert Sample(c, b) == 0;
    }
  }

  /** `get_free_change_room_with_index` and `get_free_washroom_with_index`
      on the (shuffled) order of room keys: the first room in that order
      with a free unit and its position in the order, or neither. */
  method FreeRoomWithIndex(res: ResourceTable, order: seq<string>) returns (key: Option<string>, idx: Option<nat>)
    requires forall i :: 0 <= i < |order| ==> order[i] in res.count && order[i] in res.capacity
    ensures idx == FirstFreeRoom(res.count, res.capacity, order)
    ensures idx.Some? ==> key == Some(order[idx.value])
    ensures idx.None? ==> key == None
  {
    for i := 0 to |order|
      invariant forall j :: 0 <= j < i ==> !FreeIn(res.count, res.capacity, order[j])
    {
      if res.count[order[i]] < res.capacity[order[i]] {
        return Some(order[i]), Some(i);
      }
    }
    return None, None;
  }

  /** The pool is filled with the 3T configuration, then the 1.5T one, each
      with its own magnet resource and clean. */
  method SetUpMagnets(pool: MagnetPool, loc3t: Pos, loc15t: Pos) returns (m3t: MagnetConfig, m15t: MagnetConfig)
    requires pool.items == [] && pool.capacity >= 2
    modifies pool
    ensures fresh(m3t) && fresh(m15t) && pool.items == [m3t, m15t]
    ensures m3t.id == "3T" && m3t.resKey == "magnet_3t_res" && m3t.loc == loc3t && m3t.name == "magnet_3t"
    ensures m15t.id == "1.5T" && m15t.resKey == "magnet_15t_res" && m15t.loc == loc15t && m15t.name == "magnet_15t"
    ensures m3t.visualState == Clean && m15t.visualState == Clean
  {
    m3t := new MagnetConfig("3T", "magnet_3t_res", loc3t, "magnet_3t");
    m15t := new MagnetConfig("1.5T", "magnet_15t_res", loc15t, "magnet_15t");
    pool.Put(m3t);
    pool.Put(m15t);
  }

  /** The station of scan technologist `i`: the 3T staging for the first,
      the 1.5T staging for the second, and the 3T staging again for any
      further one. */
  function ScanStation(i: nat, staging3t: Pos, staging15t: Pos): (p: Pos)
    ensures p == (if i == 1 then staging15t else staging3t)
  {
    var locs := [staging3t, staging15t];
    if i < |locs| then locs[i] else locs[0]
  }

  /** `n` new staff members of one role, each at home at its station. */
  method NewStaff(role: string, n: nat, station: nat -> Pos) returns (staff: seq<Staff>)
    ensures |staff| == n
    ensures forall i :: 0 <= i < n ==> fresh(staff[i]) && fresh(staff[i].body)
    ensures forall i :: 0 <= i < n ==> staff[i].role == role && !staff[i].busy && staff[i].body.home == Some(station(i))
    ensures forall i, j :: 0 <= i < j < n ==> staff[i] != staff[j] && staff[i].body != staff[j].body
  {
    staff := [];
    for i := 0 to n
      invariant |staff| == i
      invariant forall k :: 0 <= k < i ==> fresh(staff[k]) && fresh(staff[k].body)
      invariant forall k :: 0 <= k < i ==> staff[k].role == role && !staff[k].busy && staff[k].body.home == Some(station(k))
      invariant forall k, j :: 0 <= k < j < i ==> staff[k] != staff[j] && staff[k].body != staff[j].body
    {
      var p := station(i);
      var s := new Staff(role, p.x, p.y);
      staff := staff + [s];
    }
  }

  /** Distinct people with distinct bodies, each with a home station: what
      the break controller asks of its roster. */
  ghost predicate RosterOk(r: seq<Staff>) {
    && (forall i, j :: 0 <= i < j < |r| ==> r[i] != r[j] && r[i].body != r[j].body)
    && (forall i :: 0 <= i < |r| ==> r[i].body.home.Some?)
  }

  /** Two good rosters with no one and no body in common make a good
      roster. */
  lemma RosterJoin(a: seq<Staff>, b: seq<Staff>)
    requires RosterOk(a) && RosterOk(b)
    requires forall i, j :: 0 <= i < |a| && 0 <= j < |b| ==> a[i] != b[j] && a[i].body != b[j].body
    ensures RosterOk(a + b)
  {
    forall i, j | 0 <= i < j < |a + b|
      ensures (a + b)[i] != (a + b)[j] && (a + b)[i].body != (a + b)[j].body
    {
      if j < |a| {
      } else if i < |a| {
        assert (a + b)[i] == a[i] && (a + b)[j] == b[j - |a|];
      } else {
        assert (a + b)[i] == b[i - |a|] && (a + b)[j] == b[j - |a|];
      }
    }
  }

  /** Staff created one after another are a good roster when each group
      is. */
  method NewRoster(nBackup: nat, nScan: nat, porterHome: Pos, adminHome: Pos,
                   backupStaging: Pos, staging3t: Pos, staging15t: Pos)
    returns (porter: Staff, admin: Staff, backups: seq<Staff>, scans: seq<Staff>)
    ensures fresh(porter) && fresh(admin) && fresh(porter.body) && fresh(admin.body)
    ensures RosterOk([porter, admin] + backups + scans)
    ensures |backups| == nBackup && |scans| == nScan
    ensures porter.body.home == Some(porterHome) && admin.body.home == Some(adminHome)
    ensures forall i :: 0 <= i < nScan ==> scans[i].body.home == Some(ScanStation(i, staging3t, staging15t))
  {
    porter := new Staff("porter", porterHome.x, porterHome.y);
    admin := new Staff("admin", adminHome.x, adminHome.y);
    backups := NewStaff("backup", nBackup, i => backupStaging);
    scans := NewStaff("scan", nScan, (i: nat) => ScanStation(i, staging3t, staging15t));
    RosterJoin([porter, admin], backups);
    RosterJoin([porter, admin] + backups, scans);
  }

  /** The kernel's staff: a porter, an admin, the backups at the backup
      staging and the scan technologists at their stations; all distinct,
      all at home and none busy, as the break controller requires. */
  method SetUpStaff(env: Env, res: ResourceTable, nBackup: nat, nScan: nat, porterHome: Pos, adminHome: Pos,
                    backupStaging: Pos, staging3t: Pos, staging15t: Pos, breakRoomCenter: Pos)
    returns (mgr: StaffManager)
    ensures fresh(mgr) && mgr.Valid() && mgr.env == env && mgr.res == res
    ensures |mgr.backups| == nBackup && |mgr.scans| == nScan
    ensures mgr.porter.body.home == Some(porterHome) && mgr.admin.body.home == Some(adminHome)
    ensures forall i :: 0 <= i < nScan ==> mgr.scans[i].body.home == Some(ScanStation(i, staging3t, staging15t))
    ensures !mgr.porterCoveringAdmin && mgr.scanCoverage == map[] && mgr.staffOnBreak == map[]
    ensures fresh(mgr.breakSlot) && mgr.breakSlot.Free("break_slot")
  {
    var porter, admin, backups, scans := NewRoster(nBackup, nScan, porterHome, adminHome, backupStaging, staging3t, staging15t);
    mgr := new StaffManager(env, res, porter, admin, backups, scans, breakRoomCenter, adminHome);
    assert mgr.Roster() == [porter, admin] + backups + scans;
  }

  /** The overtime loop: while patients remain and the limit (`duration` +
      300) is not reached, one more minute runs; `after(k)` is the number of
      patients in the system after the k-th extra minute (what the patient
      processes do meanwhile is not part of this model). The loop stops with
      the system empty or at the limit, having run at most one minute past
      it. */
  method Overtime(env: Env, stats: SimStats, duration: real, after: nat -> nat) returns (minutes: nat)
    modifies env, stats`patientsInSystem
    ensures env.now == old(env.now) + minutes as real
    ensures stats.patientsInSystem == 0 || env.now >= duration + OvertimeLimit
    ensures minutes == 0 <==> old(stats.patientsInSystem) == 0 || old(env.now) >= duration + OvertimeLimit
    ensures minutes > 0 ==> env.now < duration + OvertimeLimit + 1.0 && stats.patientsInSystem == after(minutes)
  {
    minutes := 0;
    while stats.patientsInSystem > 0 && env.now < duration + OvertimeLimit
      invariant env.now == old(env.now) + minutes as real
      invariant minutes == 0 ==> stats.patientsInSystem == old(stats.patientsInSystem)
      invariant minutes > 0 ==> old(stats.patientsInSystem) > 0 && old(env.now) < duration + OvertimeLimit
      invariant minutes > 0 ==> env.now < duration + OvertimeLimit + 1.0 && stats.patientsInSystem == after(minutes)
      decreases (duration + OvertimeLimit - env.now).Floor
    {
      env.Timeout(1.0);
      minutes := minutes + 1;
      stats.patientsInSystem := after(minutes);
    }
  }
}
