/** `SimStats` (src/analysis/tracker.py): movement and state-change logs with a
    warm-up filter, the system population counters, magnet busy-vs-occupied
    accounting, and the utilisation and waiting-time summaries. */
module Tracker {
  import opened Sim

  datatype Movement = Movement(patientId: int, zone: string, timestamp: real)

  datatype StateChange = StateChange(patientId: int, oldState: Option<PState>, newState: PState, timestamp: real)

  datatype MagnetPhase = Idle | PrepPhase | ScanningPhase

  datatype WaitEntry = WaitEntry(patientId: int, timestamp: real, action: string)

  /** The two shapes of the utilisation dict: the one returned for a run of
      length zero, and the measured one. Percentages are exact (not rounded). */
  datatype Utilization =
    | EmptyRun(busyPct: real, occupiedPct: real, idlePct: real, throughput: nat, avgPatientsInSystem: real)
    | Measured(busyPct: real, occupiedPct: real, idlePct: real, throughput: nat,
               patientsInSystem: nat, totalArrivals: nat, scans3T: nat, scans15T: nat)

  datatype Summary = Summary(utilization: Utilization, avgWaitTime: real, maxWaitTime: real,
                             totalMovements: nat, totalStateChanges: nat)

  /** A logged entry, re-based to the end of the warm-up. */
  function Rebased(c: StateChange, warmUp: real): StateChange {
    c.(timestamp := c.timestamp - warmUp)
  }

  /** The state-change log that the warm-up filter keeps from a sequence of calls. */
  function AfterWarmUp(calls: seq<StateChange>, warmUp: real): (r: seq<StateChange>)
    ensures |r| <= |calls|
    ensures forall i :: 0 <= i < |r| ==> r[i].timestamp >= 0.0
  {
    if |calls| == 0 then []
    else
      var prefix := AfterWarmUp(calls[..|calls| - 1], warmUp);
      var c := calls[|calls| - 1];
      if c.timestamp < warmUp then prefix else prefix + [Rebased(c, warmUp)]
  }

  /** An entry is kept exactly when some call was stamped at or after the warm-up. */
  lemma {:induction false} AfterWarmUpMembers(calls: seq<StateChange>, warmUp: real, e: StateChange)
    ensures e in AfterWarmUp(calls, warmUp) <==>
            exists c :: c in calls && c.timestamp >= warmUp && e == Rebased(c, warmUp)
  {
    if |calls| > 0 {
      var prefix := calls[..|calls| - 1];
      AfterWarmUpMembers(prefix, warmUp, e);
      assert calls == prefix + [calls[|calls| - 1]];
    }
  }

  lemma AfterWarmUpAppend(calls: seq<StateChange>, c: StateChange, warmUp: real)
    ensures AfterWarmUp(calls + [c], warmUp) ==
            if c.timestamp < warmUp then AfterWarmUp(calls, warmUp)
            else AfterWarmUp(calls, warmUp) + [Rebased(c, warmUp)]
  {
    assert (calls + [c])[..|calls + [c]| - 1] == calls;
  }

  /** Latest 'enter' timestamp per patient in a waiting-room log. */
  function LatestEnters(log: seq<WaitEntry>): map<int, real> {
    if |log| == 0 then map[]
    else
      var e := log[|log| - 1];
      var prev := LatestEnters(log[..|log| - 1]);
      if e.action == "enter" then prev[e.patientId := e.timestamp] else prev
  }

  /** A patient has a recorded entry exactly when the log holds an 'enter' of
      theirs, and the recorded time is that of their last 'enter'. */
  lemma {:induction false} LatestEntersSpec(log: seq<WaitEntry>, pid: int)
    ensures pid in LatestEnters(log) <==>
            exists i :: 0 <= i < |log| && log[i].action == "enter" && log[i].patientId == pid
    ensures pid in LatestEnters(log) ==>
            exists i :: 0 <= i < |log| && log[i].action == "enter" && log[i].patientId == pid
                     && LatestEnters(log)[pid] == log[i].timestamp
                     && forall j :: i < j < |log| ==> !(log[j].action == "enter" && log[j].patientId == pid)
  {
    if |log| > 0 {
      var prefix := log[..|log| - 1];
      LatestEntersSpec(prefix, pid);
      var e := log[|log| - 1];
      if e.action == "enter" && e.patientId == pid {
        assert log[|log| - 1].action == "enter";
      } else if pid in LatestEnters(prefix) {
        var i :| 0 <= i < |prefix| && prefix[i].action == "enter" && prefix[i].patientId == pid
               && LatestEnters(prefix)[pid] == prefix[i].timestamp
               && forall j :: i < j < |prefix| ==> !(prefix[j].action == "enter" && prefix[j].patientId == pid);
        assert log[i] == prefix[i];
      } else {
        forall i | 0 <= i < |log| && log[i].action == "enter"
          ensures log[i].patientId != pid
        {
          if i < |prefix| { assert log[i] == prefix[i]; }
        }
      }
    }
  }

  /** The wait of every 'exit' that follows an 'enter' of the same patient,
      measured from that patient's latest earlier 'enter'. */
  function PairedWaits(log: seq<WaitEntry>): seq<real> {
    if |log| == 0 then []
    else
      var e := log[|log| - 1];
      var prefix := log[..|log| - 1];
      var enters := LatestEnters(prefix);
      if e.action != "enter" && e.action == "exit" && e.patientId in enters
      then PairedWaits(prefix) + [e.timestamp - enters[e.patientId]]
      else PairedWaits(prefix)
  }

  /** Exits without an earlier enter add nothing, so there are never more
      waits than exits. */
  function ExitCount(log: seq<WaitEntry>): nat {
    if |log| == 0 then 0
    else ExitCount(log[..|log| - 1]) + (if log[|log| - 1].action == "exit" then 1 else 0)
  }

  lemma {:induction false} PairedWaitsBounded(log: seq<WaitEntry>)
    ensures |PairedWaits(log)| <= ExitCount(log)
  {
    if |log| > 0 {
      PairedWaitsBounded(log[..|log| - 1]);
    }
  }

  function Sum(xs: seq<real>): real {
    if |xs| == 0 then 0.0 else Sum(xs[..|xs| - 1]) + xs[|xs| - 1]
  }

  /** Python's `max` of a non-empty list. */
  function MaxOf(xs: seq<real>): (m: real)
    requires |xs| > 0
    ensures m in xs
    ensures forall i :: 0 <= i < |xs| ==> xs[i] <= m
  {
    if |xs| == 1 then xs[0]
    else
      var rest := MaxOf(xs[..|xs| - 1]);
      if xs[|xs| - 1] > rest then xs[|xs| - 1] else rest
  }

  function Average(xs: seq<real>): real {
    if |xs| == 0 then 0.0 else Sum(xs) / (|xs| as real)
  }

  function MaxOrZero(xs: seq<real>): real {
    if |xs| == 0 then 0.0 else MaxOf(xs)
  }

  class SimStats {
    const warmUp: real
    var patientLog: seq<Movement>
    var stateChanges: seq<StateChange>
    /** Every `log_state_change` call, before the warm-up filter. */
    ghost var stateCalls: seq<StateChange>
    var magnetBusyTime: real
    var magnetOccupiedTime: real
    var magnetStart: Option<real>
    var magnetState: MagnetPhase
    var patientsArrived: nat
    var patientsCompleted: nat
    var patientsInSystem: nat
    var count3T: nat
    var count15T: nat
    var waitingRoomLog: seq<WaitEntry>
    var generatorActive: bool
    var estClearingTime: real

    /** Busy time never exceeds occupied time, and a start time is pending
        exactly when the magnet is not idle. */
    ghost predicate Valid()
      reads this`magnetBusyTime, this`magnetOccupiedTime, this`magnetStart, this`magnetState
    {
      && 0.0 <= magnetBusyTime <= magnetOccupiedTime
      && (magnetStart.None? <==> magnetState == Idle)
    }

    /** The logged state changes are the calls the warm-up filter keeps. */
    ghost predicate Filtered()
      reads this`stateChanges, this`stateCalls
    {
      stateChanges == AfterWarmUp(stateCalls, warmUp)
    }

    /** `warmUp` is the constructor argument, or the configured warm-up when none is given. */
    constructor (warmUp: real)
      ensures Valid() && Filtered() && this.warmUp == warmUp
      ensures patientLog == [] && stateChanges == [] && stateCalls == [] && waitingRoomLog == []
      ensures magnetBusyTime == 0.0 && magnetOccupiedTime == 0.0
      ensures magnetStart == None && magnetState == Idle
      ensures patientsArrived == 0 && patientsCompleted == 0 && patientsInSystem == 0
      ensures count3T == 0 && count15T == 0
      ensures generatorActive && estClearingTime == 0.0
    {
      this.warmUp := warmUp;
      patientLog, stateChanges, stateCalls := [], [], [];
      magnetBusyTime, magnetOccupiedTime := 0.0, 0.0;
      magnetStart, magnetState := None, Idle;
      patientsArrived, patientsCompleted, patientsInSystem := 0, 0, 0;
      count3T, count15T := 0, 0;
      waitingRoomLog := [];
      generatorActive, estClearingTime := true, 0.0;
    }

    method LogMovement(patientId: int, zone: string, timestamp: real)
      modifies this`patientLog
      ensures patientLog == if timestamp < warmUp then old(patientLog)
                            else old(patientLog) + [Movement(patientId, zone, timestamp - warmUp)]
    {
      if timestamp < warmUp {
        return;
      }
      patientLog := patientLog + [Movement(patientId, zone, timestamp - warmUp)];
    }

    /** Population counters move even during warm-up; 'exited' never takes the
        in-system count below zero. */
    method LogStateChange(patientId: int, oldState: Option<PState>, newState: PState, timestamp: real)
      requires Valid()
      modifies this`patientsArrived, this`patientsInSystem, this`stateChanges, this`stateCalls
      ensures Valid() && (old(Filtered()) ==> Filtered())
      ensures patientsArrived == old(patientsArrived) + (if newState == Arriving then 1 else 0)
      ensures patientsInSystem ==
                if newState == Arriving then old(patientsInSystem) + 1
                else if newState == Exited then (if old(patientsInSystem) == 0 then 0 else old(patientsInSystem) - 1)
                else old(patientsInSystem)
      ensures stateCalls == old(stateCalls) + [StateChange(patientId, oldState, newState, timestamp)]
    {
      if newState == Arriving {
        patientsArrived := patientsArrived + 1;
        patientsInSystem := patientsInSystem + 1;
      } else if newState == Exited {
        patientsInSystem := if patientsInSystem == 0 then 0 else patientsInSystem - 1;
      }
      var c := StateChange(patientId, oldState, newState, timestamp);
      AfterWarmUpAppend(stateCalls, c, warmUp);
      stateCalls := stateCalls + [c];
      if timestamp < warmUp {
        return;
      }
      stateChanges := stateChanges + [Rebased(c, warmUp)];
    }

    method LogCompletion(patientId: int, magnetId: string)
      modifies this`patientsCompleted, this`count3T, this`count15T
      ensures patientsCompleted == old(patientsCompleted) + 1
      ensures count3T == old(count3T) + (if magnetId == "3T" then 1 else 0)
      ensures count15T == old(count15T) + (if magnetId == "1.5T" then 1 else 0)
    {
      patientsCompleted := patientsCompleted + 1;
      if magnetId == "3T" {
        count3T := count3T + 1;
      } else if magnetId == "1.5T" {
        count15T := count15T + 1;
      }
    }

    method LogMagnetStart(timestamp: real, isScanning: bool)
      requires Valid()
      modifies this`magnetStart, this`magnetState
      ensures Valid()
      ensures magnetStart == Some(timestamp)
      ensures magnetState == if isScanning then ScanningPhase else PrepPhase
    {
      magnetStart := Some(timestamp);
      magnetState := if isScanning then ScanningPhase else PrepPhase;
    }

    /** The elapsed time goes to occupied time always and to busy time only
        while scanning; without a pending start nothing happens. The clock never
        runs backwards, so the end is not before the start. */
    method LogMagnetEnd(timestamp: real)
      requires Valid()
      requires magnetStart.Some? ==> timestamp >= magnetStart.value
      modifies this`magnetStart, this`magnetState, this`magnetBusyTime, this`magnetOccupiedTime
      ensures Valid()
      ensures magnetStart == None && magnetState == Idle
      ensures old(magnetStart).None? ==>
                magnetBusyTime == old(magnetBusyTime) && magnetOccupiedTime == old(magnetOccupiedTime)
      ensures old(magnetStart).Some? ==>
                var d := timestamp - old(magnetStart).value;
                && magnetOccupiedTime == old(magnetOccupiedTime) + d
                && magnetBusyTime == old(magnetBusyTime) + (if old(magnetState) == ScanningPhase then d else 0.0)
    {
      if magnetStart.Some? {
        var duration := timestamp - magnetStart.value;
        magnetOccupiedTime := magnetOccupiedTime + duration;
        if magnetState == ScanningPhase {
          magnetBusyTime := magnetBusyTime + duration;
        }
        magnetStart := None;
        magnetState := Idle;
      }
    }

    method LogWaitingRoom(patientId: int, timestamp: real, action: string)
      modifies this`waitingRoomLog
      ensures waitingRoomLog == old(waitingRoomLog) + [WaitEntry(patientId, timestamp, action)]
    {
      waitingRoomLog := waitingRoomLog + [WaitEntry(patientId, timestamp, action)];
    }

    /** A zero-length run reports an idle magnet; otherwise idle time is the
        complement of occupied time, and busy never exceeds occupied. */
    function CalculateUtilization(totalSimTime: real): (r: Utilization)
      reads this
      ensures totalSimTime == 0.0 <==> r.EmptyRun?
      ensures r.EmptyRun? ==> r.busyPct == 0.0 && r.occupiedPct == 0.0 && r.idlePct == 100.0 && r.throughput == 0
      ensures r.idlePct == 100.0 - r.occupiedPct
      ensures Valid() && totalSimTime > 0.0 ==> 0.0 <= r.busyPct <= r.occupiedPct
    {
      if totalSimTime == 0.0 then
        EmptyRun(0.0, 0.0, 100.0, 0, 0.0)
      else
        var busyPct := (magnetBusyTime / totalSimTime) * 100.0;
        var occupiedPct := (magnetOccupiedTime / totalSimTime) * 100.0;
        assert Valid() && totalSimTime > 0.0 ==> magnetBusyTime / totalSimTime <= magnetOccupiedTime / totalSimTime;
        Measured(busyPct, occupiedPct, 100.0 - occupiedPct, patientsCompleted,
                 patientsInSystem, patientsArrived, count3T, count15T)
    }

    /** Pairs every waiting-room 'exit' with the latest earlier 'enter' of the
        same patient and reports the mean and maximum wait (0 when none pair). */
    method GetSummaryStats(totalSimTime: real) returns (s: Summary)
      ensures s.utilization == CalculateUtilization(totalSimTime)
      ensures s.avgWaitTime == Average(PairedWaits(waitingRoomLog))
      ensures s.maxWaitTime == MaxOrZero(PairedWaits(waitingRoomLog))
      ensures s.totalMovements == |patientLog| && s.totalStateChanges == |stateChanges|
    {
      var utilization := CalculateUtilization(totalSimTime);
      var waitTimes: seq<real> := [];
      var enterTimes: map<int, real> := map[];
      var i := 0;
      while i < |waitingRoomLog|
        invariant 0 <= i <= |waitingRoomLog|
        invariant enterTimes == LatestEnters(waitingRoomLog[..i])
        invariant waitTimes == PairedWaits(waitingRoomLog[..i])
      {
        var entry := waitingRoomLog[i];
        assert waitingRoomLog[..i + 1][..i] == waitingRoomLog[..i];
        if entry.action == "enter" {
          enterTimes := enterTimes[entry.patientId := entry.timestamp];
        } else if entry.action == "exit" && entry.patientId in enterTimes {
          waitTimes := waitTimes + [entry.timestamp - enterTimes[entry.patientId]];
        }
        i := i + 1;
      }
      assert waitingRoomLog[..i] == waitingRoomLog;
      var avgWait := if |waitTimes| > 0 then Sum(waitTimes) / (|waitTimes| as real) else 0.0;
      var maxWait := if |waitTimes| > 0 then MaxOf(waitTimes) else 0.0;
      s := Summary(utilization, avgWait, maxWait, |patientLog|, |stateChanges|);
    }
  }
}
