/** The admin desk (src/core/workflows/admin.py): the queue of arriving
    patients, laid out in a line beside the desk and re-laid on every change,
    and registration under the `admin_ta` resource. The module-level queue
    list is modelled as an `AdminQueue` object that the workflows share. */
module AdminDesk {
  import opened Sim
  import opened HeadlessEntities
  import opened Tracker

  /** Where the patient at queue index `i` stands. */
  function QueueSpot(adminHome: Pos, i: nat): (p: Pos)
    ensures p.y == adminHome.y
    ensures p.x - adminHome.x == 50 + 30 * i
  {
    Pos(adminHome.x + 50 + 30 * i, adminHome.y)
  }

  /** The index of the first occurrence of `p`, as `list.remove` finds it. */
  function IndexOf(q: seq<Patient>, p: Patient): (k: nat)
    requires p in q
    ensures k < |q| && q[k] == p && p !in q[..k]
  {
    if q[0] == p then 0
    else
      var k := IndexOf(q[1..], p) + 1;
      assert q[..k] == [q[0]] + q[1..][..k - 1];
      k
  }

  /** `list.remove`: the sequence without the first occurrence of `p`. */
  function RemoveFirst(q: seq<Patient>, p: Patient): (r: seq<Patient>)
    ensures p !in q ==> r == q
    ensures p in q ==> |r| == |q| - 1
  {
    if p in q then q[..IndexOf(q, p)] + q[IndexOf(q, p) + 1..] else q
  }

  /** The others keep their relative order: what was before the removed
      patient stays in place, what was after moves up by one. */
  lemma RemoveFirstKeepsOrder(q: seq<Patient>, p: Patient, i: nat)
    requires p in q && i < |q| - 1
    ensures RemoveFirst(q, p)[i] == if i < IndexOf(q, p) then q[i] else q[i + 1]
  {
  }

  /** A patient who just joined a queue they were not in is the one removed,
      leaving the queue as it was. */
  lemma RemoveAppended(q: seq<Patient>, p: Patient)
    requires p !in q
    ensures RemoveFirst(q + [p], p) == q
  {
    assert (q + [p])[|q|] == p;
    assert (q + [p])[..|q|] == q;
  }

  /** The admin queue and the desk position it lines up from. */
  class AdminQueue {
    const adminHome: Pos
    var queue: seq<Patient>

    ghost function Bodies(): set<Entity>
      reads this
    {
      set i | 0 <= i < |queue| :: queue[i].body
    }

    /** No patient is queued twice (their bodies are distinct). */
    ghost predicate Valid()
      reads this
    {
      forall i, j :: 0 <= i < j < |queue| ==> queue[i].body != queue[j].body
    }

    /** Every queued patient stands on its spot. */
    ghost predicate Lined()
      reads this, Bodies()
    {
      forall i :: 0 <= i < |queue| ==>
        queue[i].body.x == QueueSpot(adminHome, i).x && queue[i].body.y == QueueSpot(adminHome, i).y
        && queue[i].body.AtTarget()
    }

    constructor (adminHome: Pos)
      ensures Valid() && Lined() && this.adminHome == adminHome && queue == []
    {
      this.adminHome := adminHome;
      queue := [];
    }

    /** `update_admin_queue`: the patient at index i targets (and, headless,
        reaches) (admin x + 50 + 30·i, admin y). */
    method UpdateAdminQueue()
      requires Valid()
      modifies Bodies()
      ensures Lined()
    {
      var i := 0;
      while i < |queue|
        invariant 0 <= i <= |queue|
        invariant forall j :: 0 <= j < i ==>
          queue[j].body.x == QueueSpot(adminHome, j).x && queue[j].body.y == QueueSpot(adminHome, j).y
          && queue[j].body.AtTarget()
      {
        var spot := QueueSpot(adminHome, i);
        queue[i].body.MoveTo(spot.x, spot.y);
        i := i + 1;
      }
    }

    /** Joining appends the patient at the tail and re-lays the queue. */
    method Join(p: Patient)
      requires Valid() && p.body !in Bodies()
      modifies this`queue, Bodies(), p.body
      ensures Valid() && Lined()
      ensures queue == old(queue) + [p]
      ensures Bodies() == old(Bodies()) + {p.body}
    {
      queue := queue + [p];
      forall i | 0 <= i < |queue|
        ensures queue[i].body in old(Bodies()) + {p.body}
      {
        if i < |old(queue)| {
          assert queue[i] == old(queue)[i];
        }
      }
      forall e | e in old(Bodies()) + {p.body}
        ensures e in Bodies()
      {
        if e == p.body {
          assert queue[|queue| - 1] == p;
        } else {
          var i :| 0 <= i < |old(queue)| && old(queue)[i].body == e;
          assert queue[i] == old(queue)[i];
        }
      }
      UpdateAdminQueue();
    }

    /** Leaving: a queued patient is removed, the others keep their order and
        are re-laid; a patient not in the queue changes nothing. */
    method Leave(p: Patient)
      requires Valid()
      modifies this`queue, Bodies()
      ensures Valid()
      ensures queue == RemoveFirst(old(queue), p) && p !in queue
      ensures p in old(queue) ==> Lined()
    {
      if p in queue {
        var k := IndexOf(queue, p);
        queue := queue[..k] + queue[k + 1..];
        forall i | 0 <= i < |queue|
          ensures queue[i] == old(queue)[if i < k then i else i + 1]
          ensures queue[i].body in old(Bodies())
          ensures queue[i] != p
        {
          var i' := if i < k then i else i + 1;
          assert queue[i] == old(queue)[i'];
          if i' < k {
            assert old(queue)[i'].body != old(queue)[k].body;
          } else {
            assert old(queue)[k].body != old(queue)[i'].body;
          }
        }
        UpdateAdminQueue();
      }
    }
  }

  /** `AdminWorkflow`: registration at the desk. */
  class AdminWorkflow {
    const env: Env
    const res: ResourceTable
    const stats: SimStats
    const desk: AdminQueue

    constructor (env: Env, res: ResourceTable, stats: SimStats, desk: AdminQueue)
      ensures this.env == env && this.res == res && this.stats == stats && this.desk == desk
    {
      this.env := env;
      this.res := res;
      this.stats := stats;
      this.desk := desk;
    }

    /** The first part of `perform_registration`: the patient is marked and
        logged None → arriving and joins the tail of the queue. */
    method JoinQueue(p: Patient)
      requires stats.Valid() && desk.Valid() && p.body !in desk.Bodies()
      modifies p`state, stats, desk`queue, desk.Bodies(), p.body
      ensures stats.Valid() && desk.Valid() && desk.Lined()
      ensures p.state == Some(Arriving)
      ensures stats.stateCalls == old(stats.stateCalls) + [StateChange(p.pId, None, Arriving, env.now)]
      ensures stats.patientsInSystem == old(stats.patientsInSystem) + 1
      ensures desk.queue == old(desk.queue) + [p]
      ensures desk.Bodies() == old(desk.Bodies()) + {p.body}
    {
      p.SetState(Arriving);
      stats.LogStateChange(p.pId, None, Arriving, env.now);
      desk.Join(p);
    }

    /** The desk is granted: the patient leaves the queue and steps up to it. */
    method TakeDesk(p: Patient)
      requires res.Valid() && res.Free("admin_ta") && desk.Valid()
      modifies res`count, res`events, desk`queue, desk.Bodies(), p.body
      ensures res.Valid() && desk.Valid()
      ensures res.count == old(res.count)["admin_ta" := old(res.count)["admin_ta"] + 1]
      ensures res.events == old(res.events) + [Acquired("admin_ta", None)]
      ensures desk.queue == RemoveFirst(old(desk.queue), p) && p !in desk.queue
      ensures p.body.x == desk.adminHome.x && p.body.y == desk.adminHome.y + 25
    {
      res.Acquire("admin_ta", None);
      desk.Leave(p);
      p.body.MoveTo(desk.adminHome.x, desk.adminHome.y + 25);
    }

    /** The rest of `perform_registration`, once `admin_ta` is granted: the
        patient leaves the queue, steps to the desk, is logged arriving →
        registered, waits the registration time and gives the desk back. The
        desk is held for the whole registration; the call returns true. */
    method Register(p: Patient, regTime: real) returns (ok: bool)
      requires res.Valid() && res.Free("admin_ta") && regTime >= 0.0
      requires stats.Valid() && desk.Valid()
      modifies res, env, stats, desk`queue, desk.Bodies(), p.body
      ensures ok
      ensures res.Valid() && stats.Valid() && desk.Valid()
      ensures res.count == old(res.count) && res.lastExamType == old(res.lastExamType)
      ensures res.events == old(res.events) + [Acquired("admin_ta", None), Released("admin_ta")]
      ensures desk.queue == RemoveFirst(old(desk.queue), p) && p !in desk.queue
      ensures p.body.x == desk.adminHome.x && p.body.y == desk.adminHome.y + 25
      ensures stats.stateCalls == old(stats.stateCalls) + [StateChange(p.pId, Some(Arriving), Registered, old(env.now))]
      ensures stats.patientsInSystem == old(stats.patientsInSystem)
      ensures env.now == old(env.now) + regTime
    {
      ghost var calls := stats.stateCalls + [StateChange(p.pId, Some(Arriving), Registered, env.now)];
      TakeDesk(p);
      stats.LogStateChange(p.pId, Some(Arriving), Registered, env.now);
      assert stats.stateCalls == calls;
      env.Timeout(regTime);
      res.Release("admin_ta");
      ok := true;
    }

    /** `perform_registration` when the desk is free on arrival. */
    method PerformRegistration(p: Patient, regTime: real) returns (ok: bool)
      requires res.Valid() && res.Free("admin_ta") && regTime >= 0.0
      requires stats.Valid() && desk.Valid() && p.body !in desk.Bodies()
      modifies p`state, res, env, stats, desk`queue, desk.Bodies(), p.body
      ensures ok && res.Valid() && stats.Valid() && desk.Valid()
      ensures p.state == Some(Arriving)
      ensures res.count == old(res.count) && res.lastExamType == old(res.lastExamType)
      ensures res.events == old(res.events) + [Acquired("admin_ta", None), Released("admin_ta")]
      ensures desk.queue == old(desk.queue) && p.body.x == desk.adminHome.x && p.body.y == desk.adminHome.y + 25
      ensures stats.stateCalls == old(stats.stateCalls) + [StateChange(p.pId, None, Arriving, old(env.now)),
                                                         StateChange(p.pId, Some(Arriving), Registered, old(env.now))]
      ensures stats.patientsInSystem == old(stats.patientsInSystem) + 1
      ensures env.now == old(env.now) + regTime
    {
      JoinQueue(p);
      forall i | 0 <= i < |old(desk.queue)|
        ensures old(desk.queue)[i] != p
      {
        assert old(desk.queue)[i].body in old(desk.Bodies());
      }
      RemoveAppended(old(desk.queue), p);
      ok := Register(p, regTime);
    }
  }
}
