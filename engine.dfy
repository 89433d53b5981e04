/** The first prototype's engine (src/engine.py): patients booked every
    `ARRIVAL_SCHEDULE` minutes, each late by a non-negative offset, handed to
    `process_flow` once that offset has passed. */
module LegacyEngine {
  import opened Sim
  import opened LegacyEntities

  /** Only lateness delays a patient: an early draw counts as on time. */
  function ArrivalOffset(noise: real): (o: real)
    ensures o >= 0.0 && o >= noise
    ensures noise >= 0.0 ==> o == noise
    ensures noise <= 0.0 ==> o == 0.0
  {
    if noise >= 0.0 then noise else 0.0
  }

  /** The time from the start to the end of the `k`-th booking slot. */
  function SlotOffset(schedule: real, k: nat): real {
    if k == 0 then 0.0 else SlotOffset(schedule, k - 1) + schedule
  }

  /** Slots are evenly spaced: the `k`-th ends `k` slot lengths in. */
  lemma {:induction false} SlotOffsetIsProduct(schedule: real, k: nat)
    ensures SlotOffset(schedule, k) == k as real * schedule
  {
    if k > 0 {
      SlotOffsetIsProduct(schedule, k - 1);
    }
  }

  /** `patient_generator` for as many patients as there are noise draws:
      the generator waits one slot, then creates the next patient (ids 1,
      2, 3, ...) arriving at the slot time plus the patient's offset; the
      offsets are what each patient's handler is given as its delay. */
  method PatientGenerator(env: Env, schedule: real, noises: seq<real>)
    returns (patients: seq<Patient>, delays: seq<real>)
    requires schedule >= 0.0
    modifies env
    ensures |patients| == |delays| == |noises|
    ensures env.now == old(env.now) + SlotOffset(schedule, |noises|)
    ensures forall i :: 0 <= i < |patients| ==> fresh(patients[i]) && patients[i].state == None
    ensures forall i :: 0 <= i < |patients| ==>
              patients[i].id == i + 1 && delays[i] == ArrivalOffset(noises[i])
              && patients[i].arrivalTime == old(env.now) + SlotOffset(schedule, i + 1) + delays[i]
  {
    patients, delays := [], [];
    var pId := 0;
    while pId < |noises|
      invariant 0 <= pId <= |noises| && |patients| == |delays| == pId
      invariant env.now == old(env.now) + SlotOffset(schedule, pId)
      invariant forall i :: 0 <= i < |patients| ==> fresh(patients[i]) && patients[i].state == None
      invariant forall i :: 0 <= i < |patients| ==>
                  patients[i].id == i + 1 && delays[i] == ArrivalOffset(noises[i])
                  && patients[i].arrivalTime == old(env.now) + SlotOffset(schedule, i + 1) + delays[i]
    {
      pId := pId + 1;
      var noise := noises[pId - 1];
      env.Timeout(schedule);
      var offset := ArrivalOffset(noise);
      var patient := new Patient(pId, env.now + offset);
      patients := patients + [patient];
      delays := delays + [offset];
    }
  }

  class MRISimulation {
    const simulationHours: int
    const parallel: bool
    const staffCount: int
    const logs: RecordLog

    /** The defaults are a twelve-hour serial day with four staff. */
    constructor (simulationHours: int, parallel: bool, staffCount: int)
      ensures this.simulationHours == simulationHours && this.parallel == parallel
      ensures this.staffCount == staffCount && fresh(logs) && logs.records == []
    {
      this.simulationHours := simulationHours;
      this.parallel := parallel;
      this.staffCount := staffCount;
      logs := new RecordLog();
    }

    /** The run lasts `simulation_hours * 60` minutes. */
    function RunMinutes(): (m: int)
      ensures m == 60 * simulationHours
      ensures simulationHours >= 0 ==> m >= simulationHours
    {
      simulationHours * 60
    }

    /** `_handle_patient`: wait out a positive delay, then run the patient's
        flow with the default bed flip, logging into the simulation's
        records. The patient's prep starts exactly the delay later. */
    method HandlePatient(env: Env, res: ResourceTable, p: Patient, cfg: Config, d: Draws, delay: real)
      returns (prepStart: real, scanStart: real, exitTime: real)
      requires res.Valid() && res.Free("magnet") && (parallel ==> res.Free("prep_rooms"))
      requires DrawsOk(d) && cfg.bedFlipFuture >= 0.0 && cfg.bedFlipCurrent >= 0.0
      modifies env, res`count, res`events, p`state, p`stateTrace, logs
      ensures res.Valid() && res.count == old(res.count)
      ensures prepStart == old(env.now) + (if delay > 0.0 then delay else 0.0)
      ensures prepStart <= scanStart <= exitTime == env.now
      ensures exitTime - scanStart == d.scan + (if parallel then cfg.bedFlipFuture else cfg.bedFlipCurrent)
      ensures p.state == Some("Done")
      ensures logs.records == old(logs.records)
                              + [LogRecord(p.id, p.arrivalTime, prepStart, scanStart, exitTime, Scenario(parallel))]
    {
      if delay > 0.0 {
        env.Timeout(delay);
      }
      prepStart, scanStart, exitTime := p.ProcessFlow(env, res, cfg, d, parallel, None, Some(logs));
    }
  }
}
