/** `MRIResources` of the first prototype (src/resources.py): one magnet,
    two prep rooms, and staff pools split from a single staff count; plus
    the per-minute magnet utilisation log. */
module LegacyResources {
  import opened Sim

  function Max(a: int, b: int): (m: int)
    ensures m >= a && m >= b && (m == a || m == b)
  {
    if a >= b then a else b
  }

  datatype Staffing = Staffing(porters: nat, scanTechs: nat, backupTechs: nat)

  /** One dedicated porter; the rest of the staff (at least one) are
      technologists, one of whom is the scan technologist; the others are
      backups. */
  function StaffingSplit(staffCount: int): (s: Staffing)
    ensures s.porters == 1 && s.scanTechs == 1
    ensures s.backupTechs == Max(0, Max(1, staffCount - 1) - 1)
  {
    var porters := 1;
    var techsAvailable := Max(1, staffCount - porters);
    var scanTechs := 1;
    Staffing(porters, scanTechs, Max(0, techsAvailable - scanTechs))
  }

  /** The split accounts for everyone once there are at least two staff;
      there are backups exactly when there are at least three. */
  lemma StaffingAddsUp(staffCount: int)
    ensures var s := StaffingSplit(staffCount);
            && (staffCount >= 2 ==> s.porters + s.scanTechs + s.backupTechs == staffCount)
            && (s.backupTechs > 0 <==> staffCount >= 3)
            && (staffCount <= 2 ==> s.backupTechs == 0)
  {
  }

  /** The capacities of the prototype's resources. The backup pool exists
      only when it has a unit; otherwise the attribute is None, modelled as
      an absent key. */
  function Capacities(s: Staffing): (caps: map<string, nat>)
    ensures "backup_tech" in caps <==> s.backupTechs > 0
    ensures "magnet" in caps && caps["magnet"] == 1
    ensures "prep_rooms" in caps && caps["prep_rooms"] == 2
  {
    var base := map["magnet" := 1, "prep_rooms" := 2, "scan_tech" := s.scanTechs, "porter" := s.porters];
    if s.backupTechs > 0 then base["backup_tech" := s.backupTechs] else base
  }

  datatype UsageRecord = UsageRecord(minute: real, magnetOccupied: nat)

  class MRIResources {
    const env: Env
    const staffing: Staffing
    const res: ResourceTable
    var magnetLog: seq<UsageRecord>

    ghost predicate Valid()
      reads this, res`count, res`events
    {
      res.capacity == Capacities(staffing) && res.Valid()
    }

    constructor (env: Env, staffCount: int)
      ensures Valid() && fresh(res) && this.env == env
      ensures staffing == StaffingSplit(staffCount)
      ensures res.count == map k | k in Capacities(staffing) :: 0
      ensures magnetLog == []
    {
      this.env := env;
      staffing := StaffingSplit(staffCount);
      res := new ResourceTable(Capacities(StaffingSplit(staffCount)));
      magnetLog := [];
    }

    /** `ticks` minutes of `monitor_utilization` while the counts stay as
        they are: one record per minute, stamped with the minute, holding the
        magnet's count, which never exceeds its capacity of 1. */
    method MonitorUtilization(ticks: nat)
      requires Valid()
      modifies this`magnetLog, env
      ensures |magnetLog| == |old(magnetLog)| + ticks && magnetLog[..|old(magnetLog)|] == old(magnetLog)
      ensures forall i :: |old(magnetLog)| <= i < |magnetLog| ==>
                magnetLog[i] == UsageRecord(old(env.now) + (i - |old(magnetLog)|) as real, res.count["magnet"])
      ensures forall i :: |old(magnetLog)| <= i < |magnetLog| ==> magnetLog[i].magnetOccupied <= 1
      ensures env.now == old(env.now) + ticks as real
    {
      assert res.count["magnet"] <= res.capacity["magnet"] == 1;
      for t := 0 to ticks
        invariant |magnetLog| == |old(magnetLog)| + t && magnetLog[..|old(magnetLog)|] == old(magnetLog)
        invariant forall i :: |old(magnetLog)| <= i < |magnetLog| ==>
                    magnetLog[i] == UsageRecord(old(env.now) + (i - |old(magnetLog)|) as real, res.count["magnet"])
        invariant env.now == old(env.now) + t as real
        invariant forall i :: |old(magnetLog)| <= i < |magnetLog| ==> magnetLog[i].magnetOccupied <= 1
      {
        magnetLog := magnetLog + [UsageRecord(env.now, res.count["magnet"])];
        env.Timeout(1.0);
      }
    }
  }
}
