/** The porter (src/core/workflows/porter.py): escorting patients, and the bed
    flip between scans with its quick-changeover rule — a flip is fast when
    the magnet's previous exam equals the one just finished. */
module PorterFlow {
  import opened Sim
  import opened HeadlessEntities
  import opened Aggregator

  /** Transport and turnover both ask for the porter; lower values are served first. */
  const TransportPriority: int := 1
  const TurnoverPriority: int := 0

  /** A destination: a position, or a key of the agent positions table. */
  datatype Target = At(pos: Pos) | Named(key: string)

  /** Where a target lies; an unknown key means (0, 0). */
  function TargetPos(t: Target, agentPositions: map<string, Pos>): (r: Pos)
    ensures t.At? ==> r == t.pos
    ensures t.Named? && t.key in agentPositions ==> r == agentPositions[t.key]
    ensures t.Named? && t.key !in agentPositions ==> r == Pos(0, 0)
  {
    match t
      case At(p) => p
      case Named(k) => if k in agentPositions then agentPositions[k] else Pos(0, 0)
  }

  /** The flip time: the fast sample when the previous exam on the magnet
      equals the exam passed in, the slow sample otherwise (including when
      the magnet has no previous exam). */
  function FlipDuration(lastExam: Option<string>, exam: string, fast: real, slow: real): (d: real)
    ensures lastExam == Some(exam) ==> d == fast
    ensures lastExam != Some(exam) ==> d == slow
  {
    if lastExam == Some(exam) then fast else slow
  }

  datatype FlipKind = Fast | Slow

  /** The kinds of successive flips of one magnet whose previous exam starts
      as `last`, when the exams `exams` are flipped in turn. */
  function FlipKinds(last: Option<string>, exams: seq<string>): (kinds: seq<FlipKind>)
    ensures |kinds| == |exams|
  {
    if |exams| == 0 then []
    else
      var prefix := exams[..|exams| - 1];
      var before := if |prefix| == 0 then last else Some(prefix[|prefix| - 1]);
      FlipKinds(last, prefix) + [if before == Some(exams[|exams| - 1]) then Fast else Slow]
  }

  /** Quick changeover: a flip is fast exactly when the same exam was flipped
      just before on that magnet (or, for the first, was left there). */
  lemma {:induction false} FlipKindsSpec(last: Option<string>, exams: seq<string>, i: nat)
    requires i < |exams|
    ensures FlipKinds(last, exams)[i] == Fast <==>
              (if i == 0 then last == Some(exams[0]) else exams[i - 1] == exams[i])
  {
    var prefix := exams[..|exams| - 1];
    if i < |prefix| {
      FlipKindsSpec(last, prefix, i);
      assert exams[i] == prefix[i];
      if i > 0 { assert exams[i - 1] == prefix[i - 1]; }
    } else if i > 0 {
      assert prefix[|prefix| - 1] == exams[i - 1];
    }
  }

  /** `PorterWorkflow`: one porter shared by transport and turnover. */
  class PorterWorkflow {
    const env: Env
    const res: ResourceTable
    const stats: MetricAggregator
    const porter: Staff
    const agentPositions: map<string, Pos>

    constructor (env: Env, res: ResourceTable, stats: MetricAggregator, porter: Staff,
                 agentPositions: map<string, Pos>)
      ensures this.env == env && this.res == res && this.stats == stats && this.porter == porter
      ensures this.agentPositions == agentPositions
    {
      this.env := env;
      this.res := res;
      this.stats := stats;
      this.porter := porter;
      this.agentPositions := agentPositions;
    }

    /** The porter unit is granted at priority `prio` and the porter is busy. */
    method TakePorter(prio: int)
      requires res.Valid() && res.Free("porter")
      modifies res`count, res`events, porter
      ensures res.Valid() && res.count == old(res.count)["porter" := old(res.count)["porter"] + 1]
      ensures res.events == old(res.events) + [Acquired("porter", Some(prio))]
      ensures porter.busyTrace == old(porter.busyTrace) + [true] && porter.busy
    {
      res.Acquire("porter", Some(prio));
      porter.SetBusy(true);
    }

    /** The porter is free again, back home, and the unit is given back. */
    method FreePorter()
      requires res.Valid() && "porter" in res.count && res.count["porter"] > 0 && porter.body.home.Some?
      modifies res`count, res`events, porter, porter.body
      ensures res.Valid() && res.count == old(res.count)["porter" := old(res.count)["porter"] - 1]
      ensures res.events == old(res.events) + [Released("porter")]
      ensures porter.busyTrace == old(porter.busyTrace) + [false] && !porter.busy
      ensures porter.body.x == porter.body.home.value.x && porter.body.y == porter.body.home.value.y
    {
      porter.SetBusy(false);
      porter.body.ReturnHome();
      res.Release("porter");
    }

    /** `transport`: the porter, requested at priority 1, is busy while
        escorting the patient to the target, then not busy and back home; the
        porter unit is given back. */
    method Transport(p: Patient, target: Target)
      requires res.Valid() && res.Free("porter")
      requires p.body != porter.body && porter.body.home.Some?
      modifies res`count, res`events, porter, porter.body, p.body
      ensures res.Valid() && res.count == old(res.count)
      ensures res.events == old(res.events) + [Acquired("porter", Some(TransportPriority)), Released("porter")]
      ensures p.body.x == TargetPos(target, agentPositions).x && p.body.y == TargetPos(target, agentPositions).y
      ensures porter.busyTrace == old(porter.busyTrace) + [true, false] && !porter.busy
      ensures porter.body.x == porter.body.home.value.x && porter.body.y == porter.body.home.value.y
    {
      TakePorter(TransportPriority);
      porter.body.MoveTo(p.body.x, p.body.y);
      var targetPos := TargetPos(target, agentPositions);
      porter.body.MoveTo(targetPos.x, targetPos.y);
      p.body.MoveTo(targetPos.x, targetPos.y);
      FreePorter();
    }

    /** The flip itself, while the porter is held: the room shows dirty for
        the flip time and clean after it, the flip time logged is the time
        waited, and the magnet remembers the exam. */
    method Flip(magnet: MagnetConfig, exam: string, fastFlip: real, slowFlip: real)
      returns (duration: real)
      requires stats.Valid() && fastFlip >= 0.0 && slowFlip >= 0.0
      modifies res`lastExamType, env, stats`counts, stats`magnetMetrics, stats`metricCalls, magnet
      ensures stats.Valid()
      ensures duration == FlipDuration(MapGet(old(res.lastExamType), magnet.resKey, None), exam, fastFlip, slowFlip)
      ensures res.lastExamType == old(res.lastExamType)[magnet.resKey := Some(exam)]
      ensures magnet.visualTrace == old(magnet.visualTrace) + [Dirty, Clean] && magnet.visualState == Clean
      ensures stats.metricCalls == old(stats.metricCalls) + [MetricCall(magnet.id, "flip", duration)]
      ensures stats.counts == old(stats.counts)
      ensures env.now == old(env.now) + duration
    {
      var lastExam := MapGet(res.lastExamType, magnet.resKey, None);
      duration := FlipDuration(lastExam, exam, fastFlip, slowFlip);
      magnet.SetVisual(Dirty);
      env.Timeout(duration);
      stats.LogMagnetMetric(magnet.id, "flip", duration);
      magnet.SetVisual(Clean);
      res.SetLastExamType(magnet.resKey, exam);
    }

    /** `clean_room`: the porter, requested at priority 0, is busy for the
        flip and ends not busy and at home; the porter unit is given back. */
    method CleanRoom(magnet: MagnetConfig, exam: string, fastFlip: real, slowFlip: real)
      returns (duration: real)
      requires res.Valid() && res.Free("porter") && stats.Valid()
      requires fastFlip >= 0.0 && slowFlip >= 0.0 && porter.body.home.Some?
      modifies res, env, stats`counts, stats`magnetMetrics, stats`metricCalls, porter, porter.body, magnet
      ensures res.Valid() && stats.Valid() && res.count == old(res.count)
      ensures res.events == old(res.events) + [Acquired("porter", Some(TurnoverPriority)), Released("porter")]
      ensures duration == FlipDuration(MapGet(old(res.lastExamType), magnet.resKey, None), exam, fastFlip, slowFlip)
      ensures res.lastExamType == old(res.lastExamType)[magnet.resKey := Some(exam)]
      ensures magnet.visualTrace == old(magnet.visualTrace) + [Dirty, Clean] && magnet.visualState == Clean
      ensures stats.metricCalls == old(stats.metricCalls) + [MetricCall(magnet.id, "flip", duration)]
      ensures stats.counts == old(stats.counts)
      ensures env.now == old(env.now) + duration
      ensures porter.busyTrace == old(porter.busyTrace) + [true, false] && !porter.busy
      ensures porter.body.x == porter.body.home.value.x && porter.body.y == porter.body.home.value.y
    {
      TakePorter(TurnoverPriority);
      porter.body.MoveTo(magnet.loc.x, magnet.loc.y);
      duration := Flip(magnet, exam, fastFlip, slowFlip);
      FreePorter();
    }
  }
}
