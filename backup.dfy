/** The backup technologists (src/core/workflows/backup.py): the "singles
    line" priority, the choice of a technologist, and the prep with its IV
    branch. */
module BackupFlow {
  import opened Sim
  import opened HeadlessEntities
  import opened Tracker

  /** A simple patient: not a difficult IV (absent means not difficult) and
      an outpatient. */
  function IsSimple(p: Patient): (r: bool)
    reads p`isDifficultIv, p`patientType
    ensures r <==> !p.isDifficultIv.GetOr(false) && p.patientType == "outpatient"
  {
    !p.isDifficultIv.GetOr(false) && p.patientType == "outpatient"
  }

  /** The prep request priority: 0 (jump the line) only in gap mode for a
      simple patient, 1 otherwise. An absent gap-mode flag is off. */
  function PrepPriority(gapMode: Option<bool>, simple: bool): (prio: int)
    ensures prio == 0 || prio == 1
    ensures prio == 0 <==> gapMode == Some(true) && simple
  {
    if gapMode.GetOr(false) && simple then 0 else 1
  }

  ghost function StaffSet(techs: seq<Staff>): set<Staff> {
    set i | 0 <= i < |techs| :: techs[i]
  }

  /** The first idle technologist at or after `from`, or `|techs|` when all
      of them are busy. */
  function FirstIdleFrom(techs: seq<Staff>, from: nat): (i: nat)
    requires from <= |techs|
    reads StaffSet(techs)
    ensures from <= i <= |techs|
    ensures i < |techs| ==> !techs[i].busy
    ensures forall j :: from <= j < i ==> techs[j].busy
    decreases |techs| - from
  {
    if from == |techs| then from
    else if !techs[from].busy then from
    else FirstIdleFrom(techs, from + 1)
  }

  /** `next((t for t in techs if not t.busy), techs[0])`: the index of the
      first idle technologist in list order, or 0 when all are busy. */
  function ChooseTech(techs: seq<Staff>): (i: nat)
    requires |techs| > 0
    reads StaffSet(techs)
    ensures i < |techs|
    ensures (exists j :: 0 <= j < |techs| && !techs[j].busy) ==>
              !techs[i].busy && forall j :: 0 <= j < i ==> techs[j].busy
    ensures (forall j :: 0 <= j < |techs| ==> techs[j].busy) ==> i == 0
  {
    var k := FirstIdleFrom(techs, 0);
    if k < |techs| then k else 0
  }

  /** The time spent on the IV: nothing without an IV, the difficult sample
      for a difficult IV, the normal sample otherwise. */
  function IvTime(needsIv: bool, difficult: bool, ivPrep: real, ivDifficult: real): (d: real)
    ensures !needsIv ==> d == 0.0
    ensures needsIv && difficult ==> d == ivDifficult
    ensures needsIv && !difficult ==> d == ivPrep
  {
    if needsIv then (if difficult then ivDifficult else ivPrep) else 0.0
  }

  /** `BackupWorkflow`: the pool of backup technologists. */
  class BackupWorkflow {
    const env: Env
    const res: ResourceTable
    const stats: SimStats
    const techs: seq<Staff>
    /** The technologists and their bodies: all a prep may change on the
        staff side. */
    ghost const Techs: set<Staff>
    ghost const TechBodies: set<Entity>

    /** Technologists are distinct people with distinct bodies and homes. */
    ghost predicate Valid() {
      && |techs| > 0
      && (forall i :: 0 <= i < |techs| ==> techs[i] in Techs && techs[i].body in TechBodies)
      && (forall i, j :: 0 <= i < j < |techs| ==> techs[i] != techs[j] && techs[i].body != techs[j].body)
      && (forall i :: 0 <= i < |techs| ==> techs[i].body.home.Some?)
    }

    constructor (env: Env, res: ResourceTable, stats: SimStats, techs: seq<Staff>)
      ensures this.env == env && this.res == res && this.stats == stats && this.techs == techs
      ensures Techs == StaffSet(techs) && TechBodies == (set i | 0 <= i < |techs| :: techs[i].body)
    {
      this.env := env;
      this.res := res;
      this.stats := stats;
      this.techs := techs;
      this.Techs := StaffSet(techs);
      this.TechBodies := set i | 0 <= i < |techs| :: techs[i].body;
    }

    /** The clinical part of the prep: an IV when one is needed (the
        difficult sample only then, and only for a difficult IV), then the
        screening; the patient ends prepped. */
    method ClinicalWork(p: Patient, ivPrep: real, ivDifficult: real, screening: real)
      requires ivPrep >= 0.0 && ivDifficult >= 0.0 && screening >= 0.0
      modifies env, p`state, p`hasIv
      ensures p.hasIv == (old(p.hasIv) || p.needsIv.GetOr(false))
      ensures p.state == Some(Prepped)
      ensures env.now == old(env.now) + IvTime(p.needsIv.GetOr(false), p.isDifficultIv.GetOr(false), ivPrep, ivDifficult) + screening
    {
      if p.needsIv.GetOr(false) {
        p.hasIv := true;
        var dur := if p.isDifficultIv.GetOr(false) then ivDifficult else ivPrep;
        env.Timeout(dur);
      }
      env.Timeout(screening);
      p.SetState(Prepped);
    }

    /** The technologist becomes busy, walks to the patient and takes them
        to the prep room (the technologist's own station). */
    method FetchPatient(tech: Staff, p: Patient)
      requires tech.body != p.body && tech.body.home.Some?
      modifies tech, tech.body, p.body
      ensures tech.busy && tech.busyTrace == old(tech.busyTrace) + [true]
      ensures p.body.x == tech.body.home.value.x && p.body.y == tech.body.home.value.y
    {
      tech.SetBusy(true);
      tech.body.MoveTo(p.body.x, p.body.y);
      var prepLoc := tech.body.home.value;
      p.body.MoveTo(prepLoc.x, prepLoc.y);
      tech.body.MoveTo(prepLoc.x, prepLoc.y);
    }

    /** The technologist is released and returns home. */
    method ReleaseTech(tech: Staff)
      requires tech.body.home.Some?
      modifies tech, tech.body
      ensures !tech.busy && tech.busyTrace == old(tech.busyTrace) + [false]
      ensures tech.body.x == tech.body.home.value.x && tech.body.y == tech.body.home.value.y
    {
      tech.SetBusy(false);
      tech.body.ReturnHome();
    }

    /** The prep by one technologist: the backup unit is requested at
        priority `prio`; the technologist is busy for the prep and ends not
        busy and at home; the unit is given back. */
    method PrepBy(tech: Staff, p: Patient, prio: int, ivPrep: real, ivDifficult: real, screening: real)
      requires res.Valid() && res.Free("backup_techs")
      requires ivPrep >= 0.0 && ivDifficult >= 0.0 && screening >= 0.0
      requires tech.body != p.body && tech.body.home.Some?
      modifies res`count, res`events, env, stats`patientLog, p`state, p`hasIv, p.body, tech, tech.body
      ensures res.Valid() && res.count == old(res.count)
      ensures res.events == old(res.events) + [Acquired("backup_techs", Some(prio)), Released("backup_techs")]
      ensures tech.busyTrace == old(tech.busyTrace) + [true, false] && !tech.busy
      ensures tech.body.x == tech.body.home.value.x && tech.body.y == tech.body.home.value.y
      ensures p.body.x == tech.body.home.value.x && p.body.y == tech.body.home.value.y
      ensures p.hasIv == (old(p.hasIv) || p.needsIv.GetOr(false))
      ensures p.state == Some(Prepped)
      ensures env.now == old(env.now) + IvTime(p.needsIv.GetOr(false), p.isDifficultIv.GetOr(false), ivPrep, ivDifficult) + screening
      ensures stats.patientLog == if old(env.now) < stats.warmUp then old(stats.patientLog)
                                  else old(stats.patientLog) + [Movement(p.pId, "prep_room", old(env.now) - stats.warmUp)]
    {
      res.Acquire("backup_techs", Some(prio));
      FetchPatient(tech, p);
      stats.LogMovement(p.pId, "prep_room", env.now);
      ClinicalWork(p, ivPrep, ivDifficult, screening);
      ReleaseTech(tech);
      res.Release("backup_techs");
    }

    /** `prep_patient`: the technologist chosen is the first idle one (else
        the first), busy for the prep and then not busy and home; the others
        keep their flags. The backup unit is requested at the singles-line
        priority. */
    method PrepPatient(p: Patient, gapMode: Option<bool>, ivPrep: real, ivDifficult: real, screening: real)
      returns (chosen: nat)
      requires Valid() && res.Valid() && res.Free("backup_techs")
      requires ivPrep >= 0.0 && ivDifficult >= 0.0 && screening >= 0.0
      requires forall i :: 0 <= i < |techs| ==> techs[i].body != p.body
      modifies res`count, res`events, env, stats`patientLog, p`state, p`hasIv, p.body
      modifies Techs, TechBodies
      ensures chosen == old(ChooseTech(techs))
      ensures res.Valid() && res.count == old(res.count)
      ensures res.events == old(res.events)
                            + [Acquired("backup_techs", Some(PrepPriority(gapMode, old(IsSimple(p))))),
                               Released("backup_techs")]
      ensures techs[chosen].busyTrace == old(techs[chosen].busyTrace) + [true, false] && !techs[chosen].busy
      ensures forall i :: 0 <= i < |techs| && i != chosen ==> techs[i].busy == old(techs[i].busy)
      ensures p.body.x == techs[chosen].body.home.value.x && p.body.y == techs[chosen].body.home.value.y
      ensures p.hasIv == (old(p.hasIv) || p.needsIv.GetOr(false))
      ensures p.state == Some(Prepped)
      ensures env.now == old(env.now) + IvTime(p.needsIv.GetOr(false), p.isDifficultIv.GetOr(false), ivPrep, ivDifficult) + screening
      ensures stats.patientLog == if old(env.now) < stats.warmUp then old(stats.patientLog)
                                  else old(stats.patientLog) + [Movement(p.pId, "prep_room", old(env.now) - stats.warmUp)]
    {
      chosen := ChooseTech(techs);
      var tech := techs[chosen];
      assert tech.body != p.body && tech.body.home.Some?;
      assert forall i :: 0 <= i < |techs| && i != chosen ==> techs[i] != tech;
      PrepBy(tech, p, PrepPriority(gapMode, IsSimple(p)), ivPrep, ivDifficult, screening);
    }
  }
}
