/** The stand-alone prototype (extra/simulation.py): a magnet and a pool of
    prep staff, a tracker of throughput, magnet busy time and a Gantt log of
    the magnet's spans, patients who either prep inside the magnet room
    (serial) or with a member of the prep staff before it (parallel), a
    generator booking one patient per slot, and a once-a-minute animation
    snapshot. */
module ExtraSimulation {
  import opened Sim
  import LegacyEntities
  import LegacyEngine

  /** `get_normal_sample`: a Gaussian draw clipped at zero, the same clip the
      arrival generator applies to its lateness draw. */
  function NormalSample(draw: real): (v: real)
    ensures v >= 0.0 && v >= draw
    ensures draw >= 0.0 ==> v == draw
    ensures draw <= 0.0 ==> v == 0.0
  {
    LegacyEngine.ArrivalOffset(draw)
  }

  /** One technologist is always at the scanner; the rest, and never fewer
      than one, staff the prep area. */
  function PrepCapacity(staffCount: int): (c: nat)
    ensures c >= 1
    ensures staffCount >= 2 ==> c == staffCount - 1
    ensures staffCount <= 2 ==> c == 1
  {
    if staffCount - 1 >= 1 then staffCount - 1 else 1
  }

  /** The length of the run, in minutes. */
  const RunMinutes: real := 720.0

  /** Magnet utilisation: busy minutes as a percentage of the run. */
  function Utilization(busy: real): (u: real)
    ensures 0.0 <= busy <= RunMinutes ==> 0.0 <= u <= 100.0
    ensures busy == RunMinutes ==> u == 100.0
  {
    busy / RunMinutes * 100.0
  }

  /** One bar of the Gantt chart. */
  datatype GanttEntry = GanttEntry(start: real, finish: real, resource: string, state: string)

  function MagnetSpan(start: real, length: real, state: string): GanttEntry {
    GanttEntry(start, start + length, "Magnet", state)
  }

  /** Each bar ends where the next begins. */
  predicate Contiguous(log: seq<GanttEntry>) {
    forall i :: 0 < i < |log| ==> log[i - 1].finish == log[i].start
  }

  /** Minutes of bars in state `state`. */
  function TimeIn(log: seq<GanttEntry>, state: string): real {
    if |log| == 0 then 0.0
    else TimeIn(log[..|log| - 1], state)
         + (if log[|log| - 1].state == state then log[|log| - 1].finish - log[|log| - 1].start else 0.0)
  }

  /** The magnet's bars for a serial patient whose prep starts at `t0`. */
  function SerialSpans(t0: real, prep: real, scan: real, flip: real): seq<GanttEntry> {
    [MagnetSpan(t0, prep, "Idle (Prep)"), MagnetSpan(t0 + prep, scan, "Scanning"),
     MagnetSpan(t0 + prep + scan, flip, "Changeover")]
  }

  /** The magnet's bars for a parallel patient whose scan starts at `t0`. */
  function ParallelSpans(t0: real, scan: real, flip: real): seq<GanttEntry> {
    [MagnetSpan(t0, scan, "Scanning"), MagnetSpan(t0 + scan, flip, "Changeover")]
  }

  /** A serial patient's bars cover the whole magnet hold without gaps, and
      exactly the scan counts as scanning. */
  lemma SerialSpansCover(t0: real, prep: real, scan: real, flip: real)
    ensures var log := SerialSpans(t0, prep, scan, flip);
            && Contiguous(log) && log[0].start == t0 && log[2].finish == t0 + prep + scan + flip
            && TimeIn(log, "Scanning") == scan && TimeIn(log, "Idle (Prep)") == prep
  {
    var log := SerialSpans(t0, prep, scan, flip);
    assert log[..2] == [log[0], log[1]] && log[..2][..1] == [log[0]] && [log[0]][..0] == [];
    assert log[0] == GanttEntry(t0, t0 + prep, "Magnet", "Idle (Prep)");
    assert log[1] == GanttEntry(t0 + prep, t0 + prep + scan, "Magnet", "Scanning");
    assert TimeIn([], "Scanning") == 0.0 && TimeIn([], "Idle (Prep)") == 0.0;
    assert TimeIn([log[0]], "Scanning") == 0.0;
    assert TimeIn([log[0]], "Idle (Prep)") == (t0 + prep) - t0 == prep;
    assert TimeIn([log[0], log[1]], "Scanning") == (t0 + prep + scan) - (t0 + prep) == scan;
    assert TimeIn([log[0], log[1]], "Idle (Prep)") == prep;
  }

  /** A parallel patient's bars cover scan and flip without a gap; none is
      idle prep time. */
  lemma ParallelSpansCover(t0: real, scan: real, flip: real)
    ensures var log := ParallelSpans(t0, scan, flip);
            && Contiguous(log) && log[0].start == t0 && log[1].finish == t0 + scan + flip
            && TimeIn(log, "Scanning") == scan && TimeIn(log, "Idle (Prep)") == 0.0
  {
    var log := ParallelSpans(t0, scan, flip);
    assert log[..1] == [log[0]] && [log[0]][..0] == [];
    forall st | st in {"Scanning", "Idle (Prep)"}
      ensures TimeIn(log, st) == (if st == "Scanning" then scan else 0.0)
    {
      assert TimeIn(log, st) == TimeIn([log[0]], st);
    }
  }

  /** Bars logged one after another add their times up. */
  lemma {:induction false} TimeInAppend(a: seq<GanttEntry>, b: seq<GanttEntry>, state: string)
    ensures TimeIn(a + b, state) == TimeIn(a, state) + TimeIn(b, state)
    decreases |b|
  {
    if |b| == 0 {
      assert a + b == a;
    } else {
      assert (a + b)[..|a + b| - 1] == a + b[..|b| - 1];
      TimeInAppend(a, b[..|b| - 1], state);
    }
  }

  /** `MRI_Stat_Tracker`. */
  class StatTracker {
    var throughput: nat
    var magnetBusyTime: real
    var eventLog: seq<GanttEntry>

    /** The busy time is the time the Gantt log shows the magnet
        scanning. */
    ghost predicate Consistent()
      reads this
    {
      magnetBusyTime == TimeIn(eventLog, "Scanning")
    }

    constructor ()
      ensures throughput == 0 && magnetBusyTime == 0.0 && eventLog == [] && Consistent()
    {
      throughput := 0;
      magnetBusyTime := 0.0;
      eventLog := [];
    }

    method Log(e: GanttEntry)
      modifies this`eventLog
      ensures eventLog == old(eventLog) + [e]
    {
      eventLog := eventLog + [e];
    }

    /** A finished scan: its minutes count as busy, and one more patient is
        through. */
    method CountScan(scan: real)
      modifies this`magnetBusyTime, this`throughput
      ensures magnetBusyTime == old(magnetBusyTime) + scan && throughput == old(throughput) + 1
    {
      magnetBusyTime := magnetBusyTime + scan;
      throughput := throughput + 1;
    }
  }

  class Patient {
    const id: int
    var state: string
    var x: real
    var y: real
    /** Every value assigned to `state` after construction, in order. */
    ghost var stateTrace: seq<string>

    /** A new patient is waiting at the origin. */
    constructor (id: int)
      ensures this.id == id && state == "Arrived/Waiting" && x == 0.0 && y == 0.0 && stateTrace == []
    {
      this.id := id;
      state := "Arrived/Waiting";
      x := 0.0;
      y := 0.0;
      stateTrace := [];
    }

    method SetState(s: string)
      modifies this`state, this`stateTrace
      ensures state == s && stateTrace == old(stateTrace) + [s]
    {
      state := s;
      stateTrace := stateTrace + [s];
    }

    /** The animation's position rule: the listed states move the patient
        to their zone; any other state leaves the patient where it was. */
    method Place(yDraw: real)
      modifies this`x, this`y
      ensures (x, y) == Placement(state, old(x), old(y), yDraw)
    {
      if state == "Arrived/Waiting" {
        x, y := 0.0, yDraw;
      } else if state == "Prepping" || state == "IV Setup" {
        x, y := 1.0, yDraw;
      } else if state == "Scanning" {
        x, y := 2.0, 2.0;
      } else if state == "Done" {
        x, y := 3.0, yDraw;
      }
    }
  }

  /** The zone of each listed state; unlisted states (among them 'Changed')
      keep the old position. */
  function Placement(state: string, x: real, y: real, yDraw: real): (pos: (real, real))
    ensures state == "Scanning" ==> pos == (2.0, 2.0)
    ensures state in {"Arrived/Waiting", "Prepping", "IV Setup", "Done"} ==> pos.1 == yDraw
    ensures state !in {"Arrived/Waiting", "Prepping", "IV Setup", "Scanning", "Done"} ==> pos == (x, y)
    ensures pos.0 == 2.0 && pos != (x, y) ==> state == "Scanning"
  {
    if state == "Arrived/Waiting" then (0.0, yDraw)
    else if state == "Prepping" || state == "IV Setup" then (1.0, yDraw)
    else if state == "Scanning" then (2.0, 2.0)
    else if state == "Done" then (3.0, yDraw)
    else (x, y)
  }

  /** Serial prep and scan inside the magnet room, logged as an idle bar
      and a scanning bar. */
  method SerialPrepAndScan(env: Env, patient: Patient, stats: StatTracker, prep: real, scan: real)
    requires prep >= 0.0 && scan >= 0.0
    modifies env, patient`state, patient`stateTrace, stats
    ensures env.now == old(env.now) + prep + scan
    ensures stats.eventLog == old(stats.eventLog) + [MagnetSpan(old(env.now), prep, "Idle (Prep)")]
                                                  + [MagnetSpan(old(env.now) + prep, scan, "Scanning")]
    ensures stats.magnetBusyTime == old(stats.magnetBusyTime) + scan && stats.throughput == old(stats.throughput) + 1
    ensures patient.stateTrace == old(patient.stateTrace) + ["Prepping", "Scanning"]
  {
    patient.SetState("Prepping");
    var startPrep := env.now;
    env.Timeout(prep);
    stats.Log(GanttEntry(startPrep, env.now, "Magnet", "Idle (Prep)"));
    patient.SetState("Scanning");
    var startScan := env.now;
    env.Timeout(scan);
    stats.Log(GanttEntry(startScan, env.now, "Magnet", "Scanning"));
    stats.CountScan(scan);
  }

  /** The patient leaves and the bed is turned over, logged as a
      changeover bar. */
  method Changeover(env: Env, patient: Patient, stats: StatTracker, flip: real)
    requires flip >= 0.0
    modifies env, patient`state, patient`stateTrace, stats`eventLog
    ensures env.now == old(env.now) + flip
    ensures stats.eventLog == old(stats.eventLog) + [MagnetSpan(old(env.now), flip, "Changeover")]
    ensures patient.stateTrace == old(patient.stateTrace) + ["Done"]
  {
    patient.SetState("Done");
    var startFlip := env.now;
    env.Timeout(flip);
    stats.Log(GanttEntry(startFlip, env.now, "Magnet", "Changeover"));
  }

  /** `handle_patient` in the serial scenario: the magnet is held from the
      start of prep to the end of the bed flip, the Gantt log gains the three
      contiguous bars of that hold, and only the scan counts as busy. */
  method HandleSerial(env: Env, res: ResourceTable, patient: Patient, stats: StatTracker,
                      cfg: LegacyEntities.Config, d: LegacyEntities.Draws, bedFlip: real)
    requires res.Valid() && res.Free("magnet")
    requires d.screening >= 0.0 && d.change >= 0.0 && d.ivSetup >= 0.0 && bedFlip >= 0.0
    modifies env, res`count, res`events, patient`state, patient`stateTrace, stats
    ensures res.Valid() && res.count == old(res.count)
    ensures res.events == old(res.events) + [Acquired("magnet", None)] + [Released("magnet")]
    ensures stats.eventLog == old(stats.eventLog)
                              + SerialSpans(old(env.now), LegacyEntities.PrepTime(cfg, d), NormalSample(d.scan), bedFlip)
    ensures stats.magnetBusyTime == old(stats.magnetBusyTime) + NormalSample(d.scan)
    ensures stats.throughput == old(stats.throughput) + 1
    ensures patient.stateTrace == old(patient.stateTrace) + ["Arrived/Waiting", "Prepping", "Scanning", "Done"]
    ensures env.now == old(env.now) + LegacyEntities.PrepTime(cfg, d) + NormalSample(d.scan) + bedFlip
    ensures old(stats.Consistent()) ==> stats.Consistent()
  {
    patient.SetState("Arrived/Waiting");
    var prep := LegacyEntities.PrepTime(cfg, d);
    var scan := NormalSample(d.scan);
    res.Acquire("magnet", None);
    SerialPrepAndScan(env, patient, stats, prep, scan);
    Changeover(env, patient, stats, bedFlip);
    PlusThenMinus(old(res.count), "magnet");
    res.Release("magnet");
    TimeInAppend(old(stats.eventLog), SerialSpans(old(env.now), prep, scan, bedFlip), "Scanning");
    SerialSpansCover(old(env.now), prep, scan, bedFlip);
  }

  /** Taking a magnet unit while holding a staff unit and then giving the
      staff unit back leaves one more magnet unit held and nothing else. */
  lemma HandOff(c: map<string, nat>, staff: string, magnet: string)
    requires staff in c && magnet in c && staff != magnet
    ensures var c1 := c[staff := c[staff] + 1];
            var c2 := c1[magnet := c1[magnet] + 1];
            c2[staff := c2[staff] - 1] == c[magnet := c[magnet] + 1]
  {
  }

  /** Parallel step 1: prep with a member of the prep staff held. */
  method StaffedPrep(env: Env, res: ResourceTable, patient: Patient, prep: real)
    requires res.Valid() && res.Free("prep_staff") && prep >= 0.0
    modifies env, res`count, res`events, patient`state, patient`stateTrace
    ensures res.Valid() && res.count == old(res.count)["prep_staff" := old(res.count)["prep_staff"] + 1]
    ensures res.events == old(res.events) + [Acquired("prep_staff", None)]
    ensures patient.stateTrace == old(patient.stateTrace) + ["Prepping"]
    ensures env.now == old(env.now) + prep
  {
    res.Acquire("prep_staff", None);
    patient.SetState("Prepping");
    env.Timeout(prep);
  }

  /** Parallel steps 1-3: prep with a member of the prep staff, who is let
      go only once the magnet has been granted. */
  method ParallelPrep(env: Env, res: ResourceTable, patient: Patient, prep: real)
    requires res.Valid() && res.Free("prep_staff") && res.Free("magnet") && prep >= 0.0
    modifies env, res`count, res`events, patient`state, patient`stateTrace
    ensures res.Valid() && res.count == old(res.count)["magnet" := old(res.count)["magnet"] + 1]
    ensures res.events == old(res.events) + [Acquired("prep_staff", None), Acquired("magnet", None), Released("prep_staff")]
    ensures patient.stateTrace == old(patient.stateTrace) + ["Prepping"]
    ensures env.now == old(env.now) + prep
  {
    StaffedPrep(env, res, patient, prep);
    res.Acquire("magnet", None);
    res.Release("prep_staff");
    HandOff(old(res.count), "prep_staff", "magnet");
  }

  /** The parallel scan, logged as a scanning bar and counted. */
  method ParallelScan(env: Env, patient: Patient, stats: StatTracker, scan: real)
    requires scan >= 0.0
    modifies env, patient`state, patient`stateTrace, stats
    ensures env.now == old(env.now) + scan
    ensures stats.eventLog == old(stats.eventLog) + [MagnetSpan(old(env.now), scan, "Scanning")]
    ensures stats.magnetBusyTime == old(stats.magnetBusyTime) + scan && stats.throughput == old(stats.throughput) + 1
    ensures patient.stateTrace == old(patient.stateTrace) + ["Scanning"]
  {
    patient.SetState("Scanning");
    var startScan := env.now;
    env.Timeout(scan);
    stats.Log(GanttEntry(startScan, env.now, "Magnet", "Scanning"));
    stats.CountScan(scan);
  }

  /** `handle_patient_parallel`: the prep staff member is released only
      after the magnet is granted, and the magnet only after the bed flip;
      the Gantt log gains a scanning bar and a changeover bar. */
  method HandleParallel(env: Env, res: ResourceTable, patient: Patient, stats: StatTracker,
                        cfg: LegacyEntities.Config, d: LegacyEntities.Draws, bedFlip: real)
    requires res.Valid() && res.Free("prep_staff") && res.Free("magnet")
    requires d.screening >= 0.0 && d.change >= 0.0 && d.ivSetup >= 0.0 && bedFlip >= 0.0
    modifies env, res`count, res`events, patient`state, patient`stateTrace, stats
    ensures res.Valid() && res.count == old(res.count)
    ensures res.events == old(res.events) + [Acquired("prep_staff", None), Acquired("magnet", None), Released("prep_staff")]
                                          + [Released("magnet")]
    ensures stats.eventLog == old(stats.eventLog)
                              + ParallelSpans(old(env.now) + LegacyEntities.PrepTime(cfg, d), NormalSample(d.scan), bedFlip)
    ensures stats.magnetBusyTime == old(stats.magnetBusyTime) + NormalSample(d.scan)
    ensures stats.throughput == old(stats.throughput) + 1
    ensures patient.stateTrace == old(patient.stateTrace) + ["Prepping", "Scanning", "Done"]
    ensures env.now == old(env.now) + LegacyEntities.PrepTime(cfg, d) + NormalSample(d.scan) + bedFlip
    ensures old(stats.Consistent()) ==> stats.Consistent()
  {
    ParallelPrep(env, res, patient, LegacyEntities.PrepTime(cfg, d));
    var scan := NormalSample(d.scan);
    var startScan := env.now;
    ParallelScan(env, patient, stats, scan);
    Changeover(env, patient, stats, bedFlip);
    PlusThenMinus(old(res.count), "magnet");
    res.Release("magnet");
    TimeInAppend(old(stats.eventLog), ParallelSpans(startScan, scan, bedFlip), "Scanning");
    ParallelSpansCover(startScan, scan, bedFlip);
  }

  /** One row of the animation data. */
  datatype AnimRow = AnimRow(minute: real, patientId: int, x: real, y: real, state: string)

  /** The pairwise distinctness of the patients the generator creates. */
  predicate Distinct(ps: seq<Patient>) {
    forall i, j :: 0 <= i < j < |ps| ==> ps[i] != ps[j]
  }

  /** `run_simulation`'s state: the magnet and prep staff, the tracker, the
      patient list the generator fills and the animation rows the monitor
      appends. */
  class Simulation {
    const env: Env
    const res: ResourceTable
    const stats: StatTracker
    var allPatients: seq<Patient>
    var animationData: seq<AnimRow>

    /** A magnet of capacity 1 and `PrepCapacity(staffCount)` prep staff. */
    constructor (env: Env, staffCount: int)
      ensures this.env == env && fresh(res) && fresh(stats) && res.Valid()
      ensures res.capacity == map["magnet" := 1, "prep_staff" := PrepCapacity(staffCount)]
      ensures stats.throughput == 0 && stats.magnetBusyTime == 0.0 && stats.eventLog == []
      ensures allPatients == [] && animationData == []
    {
      this.env := env;
      res := new ResourceTable(map["magnet" := 1, "prep_staff" := PrepCapacity(staffCount)]);
      stats := new StatTracker();
      allPatients := [];
      animationData := [];
    }

    /** `patient_generator` for `n` slots: each slot a new patient (ids 1,
        2, 3, ...) joins the list, then the generator waits one booking
        slot. */
    method PatientGenerator(n: nat, bookingSlot: real)
      requires bookingSlot >= 0.0 && Distinct(allPatients)
      modifies this`allPatients, env
      ensures |allPatients| == |old(allPatients)| + n && allPatients[..|old(allPatients)|] == old(allPatients)
      ensures Distinct(allPatients)
      ensures forall k :: |old(allPatients)| <= k < |allPatients| ==>
                fresh(allPatients[k]) && allPatients[k].id == k - |old(allPatients)| + 1
                && allPatients[k].state == "Arrived/Waiting"
      ensures env.now == old(env.now) + LegacyEngine.SlotOffset(bookingSlot, n)
    {
      var pId := 0;
      while pId < n
        invariant 0 <= pId <= n
        invariant |allPatients| == |old(allPatients)| + pId && allPatients[..|old(allPatients)|] == old(allPatients)
        invariant Distinct(allPatients)
        invariant forall k :: |old(allPatients)| <= k < |allPatients| ==>
                    fresh(allPatients[k]) && allPatients[k].id == k - |old(allPatients)| + 1
                    && allPatients[k].state == "Arrived/Waiting"
        invariant env.now == old(env.now) + LegacyEngine.SlotOffset(bookingSlot, pId)
      {
        pId := pId + 1;
        var patient := new Patient(pId);
        allPatients := allPatients + [patient];
        env.Timeout(bookingSlot);
      }
    }

    /** One minute of `monitor_process`: every patient is placed by its
        state, in list order, and a row with the unrounded current time and
        the new position is appended; then the monitor sleeps a minute.
        `yDraws[i]` is the uniform draw for the i-th patient. */
    method MonitorTick(yDraws: seq<real>)
      requires |yDraws| == |allPatients| && Distinct(allPatients)
      modifies allPatients, this`animationData, env
      ensures |animationData| == |old(animationData)| + |allPatients|
      ensures animationData[..|old(animationData)|] == old(animationData)
      ensures forall k :: 0 <= k < |allPatients| ==>
                (allPatients[k].x, allPatients[k].y)
                  == Placement(old(allPatients[k].state), old(allPatients[k].x), old(allPatients[k].y), yDraws[k])
                && allPatients[k].state == old(allPatients[k].state)
                && allPatients[k].stateTrace == old(allPatients[k].stateTrace)
      ensures forall k :: 0 <= k < |allPatients| ==>
                animationData[|old(animationData)| + k]
                  == AnimRow(old(env.now), allPatients[k].id, allPatients[k].x, allPatients[k].y, allPatients[k].state)
      ensures env.now == old(env.now) + 1.0
    {
      var minute := env.now;
      for i := 0 to |allPatients|
        invariant |animationData| == |old(animationData)| + i
        invariant animationData[..|old(animationData)|] == old(animationData)
        invariant forall k :: 0 <= k < |allPatients| ==>
                    allPatients[k].state == old(allPatients[k].state)
                    && allPatients[k].stateTrace == old(allPatients[k].stateTrace)
        invariant forall k :: 0 <= k < i ==>
                    (allPatients[k].x, allPatients[k].y)
                      == Placement(old(allPatients[k].state), old(allPatients[k].x), old(allPatients[k].y), yDraws[k])
        invariant forall k :: i <= k < |allPatients| ==>
                    allPatients[k].x == old(allPatients[k].x) && allPatients[k].y == old(allPatients[k].y)
        invariant forall k :: 0 <= k < i ==>
                    animationData[|old(animationData)| + k]
                      == AnimRow(minute, allPatients[k].id, allPatients[k].x, allPatients[k].y, allPatients[k].state)
        invariant env.now == minute
      {
        var p := allPatients[i];
        p.Place(yDraws[i]);
        animationData := animationData + [AnimRow(minute, p.id, p.x, p.y, p.state)];
      }
      env.Timeout(1.0);
    }

    /** What `run_simulation` returns: the throughput and the magnet's
        utilisation over the run. */
    function Results(): (r: (nat, real))
      reads stats
      ensures r.0 == stats.throughput
      ensures 0.0 <= stats.magnetBusyTime <= RunMinutes ==> 0.0 <= r.1 <= 100.0
    {
      (stats.throughput, Utilization(stats.magnetBusyTime))
    }
  }
}
