/** The first prototype's patient (src/entities.py): one `process_flow`
    that either holds the magnet from prep to the end of the bed flip (the
    serial scenario) or preps in a prep room first and holds the magnet only
    for the scan and the flip (the parallel scenario), and then appends one
    record of its timestamps. */
module LegacyEntities {
  import opened Sim

  /** The flip time: an override wins; otherwise the shorter future-state
      flip in the parallel scenario and the current one in the serial. */
  function BedFlipTime(override: Option<real>, parallel: bool, future: real, current: real): (t: real)
    ensures override.Some? ==> t == override.value
    ensures override.None? && parallel ==> t == future
    ensures override.None? && !parallel ==> t == current
  {
    match override
    case Some(v) => v
    case None => if parallel then future else current
  }

  /** The legacy configuration constants `process_flow` reads. */
  datatype Config = Config(probNeedsIv: real, bedFlipFuture: real, bedFlipCurrent: real)

  /** One patient's draws, in the order `process_flow` takes them: screening
      and change times, the uniform draw deciding the IV, the IV setup time
      and the scan time. */
  datatype Draws = Draws(screening: real, change: real, ivDraw: real, ivSetup: real, scan: real)

  /** A patient needs an IV when the uniform draw falls below the
      probability. */
  predicate NeedsIv(cfg: Config, d: Draws) {
    d.ivDraw < cfg.probNeedsIv
  }

  /** Prep is screening plus change plus, only when an IV is needed, its
      setup time. */
  function PrepTime(cfg: Config, d: Draws): (t: real)
    ensures NeedsIv(cfg, d) ==> t == d.screening + d.change + d.ivSetup
    ensures !NeedsIv(cfg, d) ==> t == d.screening + d.change
  {
    var ivTime := if NeedsIv(cfg, d) then d.ivSetup else 0.0;
    d.screening + d.change + ivTime
  }

  /** The samplers never return a negative time. */
  predicate DrawsOk(d: Draws) {
    d.screening >= 0.0 && d.change >= 0.0 && d.ivSetup >= 0.0 && d.scan >= 0.0
  }

  /** Prep never takes less than screening and change together. */
  lemma PrepTimeBounds(cfg: Config, d: Draws)
    requires DrawsOk(d)
    ensures d.screening + d.change <= PrepTime(cfg, d) <= d.screening + d.change + d.ivSetup
  {
  }

  /** The record `process_flow` appends to the log it is given. */
  datatype LogRecord = LogRecord(pId: int, arrivalTime: real, prepStart: real, scanStart: real,
                                 exitTime: real, scenario: string)

  function Scenario(parallel: bool): (s: string)
    ensures s == "Parallel" <==> parallel
    ensures s == "Serial" <==> !parallel
  {
    if parallel then "Parallel" else "Serial"
  }

  /** The list the engine passes as `log_records`. */
  class RecordLog {
    var records: seq<LogRecord>

    constructor ()
      ensures records == []
    {
      records := [];
    }

    method Append(r: LogRecord)
      modifies this
      ensures records == old(records) + [r]
    {
      records := records + [r];
    }
  }

  class Patient {
    const id: int
    const arrivalTime: real
    /** The `state` attribute, which does not exist before the flow starts. */
    var state: Option<string>
    /** Every value assigned to `state`, in order. */
    ghost var stateTrace: seq<string>

    constructor (id: int, arrivalTime: real)
      ensures this.id == id && this.arrivalTime == arrivalTime
      ensures state == None && stateTrace == []
    {
      this.id := id;
      this.arrivalTime := arrivalTime;
      state := None;
      stateTrace := [];
    }

    method SetState(s: string)
      modifies this`state, this`stateTrace
      ensures state == Some(s) && stateTrace == old(stateTrace) + [s]
    {
      state := Some(s);
      stateTrace := stateTrace + [s];
    }

    /** Serial scenario: the magnet is seized, and prep, scan and flip all
        happen inside it; the exit time is taken before the magnet is given
        back. */
    method SerialFlow(env: Env, res: ResourceTable, prep: real, scan: real, flip: real)
      returns (prepStart: real, scanStart: real, exitTime: real)
      requires res.Valid() && res.Free("magnet") && prep >= 0.0 && scan >= 0.0 && flip >= 0.0
      modifies env, res`count, res`events, this`state, this`stateTrace
      ensures res.Valid() && res.count == old(res.count)
      ensures res.events == old(res.events) + [Acquired("magnet", None)] + [Released("magnet")]
      ensures stateTrace == old(stateTrace) + ["Prepping", "Scanning", "Done"]
      ensures prepStart == old(env.now) && scanStart == prepStart + prep
      ensures exitTime == scanStart + scan + flip == env.now
    {
      res.Acquire("magnet", None);
      SetState("Prepping");
      prepStart := env.now;
      env.Timeout(prep);
      SetState("Scanning");
      scanStart := env.now;
      env.Timeout(scan);
      SetState("Done");
      env.Timeout(flip);
      exitTime := env.now;
      PlusThenMinus(old(res.count), "magnet");
      res.Release("magnet");
    }

    /** Parallel steps 1-3: a prep room is held for the prep alone. */
    method ParallelPrep(env: Env, res: ResourceTable, prep: real) returns (prepStart: real)
      requires res.Valid() && res.Free("prep_rooms") && prep >= 0.0
      modifies env, res`count, res`events, this`state, this`stateTrace
      ensures res.Valid() && res.count == old(res.count)
      ensures res.events == old(res.events) + [Acquired("prep_rooms", None)] + [Released("prep_rooms")]
      ensures stateTrace == old(stateTrace) + ["Prepping"]
      ensures prepStart == old(env.now) && env.now == prepStart + prep
    {
      res.Acquire("prep_rooms", None);
      SetState("Prepping");
      prepStart := env.now;
      env.Timeout(prep);
      PlusThenMinus(old(res.count), "prep_rooms");
      res.Release("prep_rooms");
    }

    /** Parallel steps 4-7: the gowned patient waits, then the magnet is
        held for the scan and the flip. */
    method ParallelScan(env: Env, res: ResourceTable, scan: real, flip: real) returns (scanStart: real, exitTime: real)
      requires res.Valid() && res.Free("magnet") && scan >= 0.0 && flip >= 0.0
      modifies env, res`count, res`events, this`state, this`stateTrace
      ensures res.Valid() && res.count == old(res.count)
      ensures res.events == old(res.events) + [Acquired("magnet", None)] + [Released("magnet")]
      ensures stateTrace == old(stateTrace) + ["Arrived/Waiting", "Changed", "Scanning", "Done"]
      ensures scanStart == old(env.now) && exitTime == scanStart + scan + flip == env.now
    {
      SetState("Arrived/Waiting");
      SetState("Changed");
      res.Acquire("magnet", None);
      SetState("Scanning");
      scanStart := env.now;
      env.Timeout(scan);
      SetState("Done");
      env.Timeout(flip);
      PlusThenMinus(old(res.count), "magnet");
      res.Release("magnet");
      exitTime := env.now;
    }

    /** `process_flow`: the timestamps are ordered, every unit taken is
        given back, the patient ends 'Done', and a record of this patient's
        timestamps and scenario is appended exactly when a log is given. */
    method ProcessFlow(env: Env, res: ResourceTable, cfg: Config, d: Draws, parallel: bool,
                       bedFlipOverride: Option<real>, log: Option<RecordLog>)
      returns (prepStart: real, scanStart: real, exitTime: real)
      requires res.Valid() && res.Free("magnet") && (parallel ==> res.Free("prep_rooms"))
      requires DrawsOk(d) && cfg.bedFlipFuture >= 0.0 && cfg.bedFlipCurrent >= 0.0
      requires bedFlipOverride.Some? ==> bedFlipOverride.value >= 0.0
      modifies env, res`count, res`events, this`state, this`stateTrace
      modifies if log.Some? then {log.value} else {}
      ensures res.Valid() && res.count == old(res.count)
      ensures old(env.now) == prepStart <= scanStart <= exitTime == env.now
      ensures scanStart - prepStart == PrepTime(cfg, d)
      ensures exitTime - scanStart == d.scan + BedFlipTime(bedFlipOverride, parallel, cfg.bedFlipFuture, cfg.bedFlipCurrent)
      ensures !parallel ==> res.events == old(res.events) + [Acquired("magnet", None)] + [Released("magnet")]
      ensures parallel ==> res.events == old(res.events) + [Acquired("prep_rooms", None)] + [Released("prep_rooms")]
                                         + [Acquired("magnet", None)] + [Released("magnet")]
      ensures !parallel ==> stateTrace == old(stateTrace) + ["Arrived/Waiting", "Prepping", "Scanning", "Done", "Done"]
      ensures parallel ==> stateTrace == old(stateTrace) + ["Arrived/Waiting", "Prepping", "Arrived/Waiting", "Changed",
                                                            "Scanning", "Done", "Done"]
      ensures state == Some("Done")
      ensures log.Some? ==> log.value.records == old(log.value.records)
                              + [LogRecord(id, arrivalTime, prepStart, scanStart, exitTime, Scenario(parallel))]
    {
      SetState("Arrived/Waiting");
      var prep := PrepTime(cfg, d);
      var flip := BedFlipTime(bedFlipOverride, parallel, cfg.bedFlipFuture, cfg.bedFlipCurrent);
      if !parallel {
        prepStart, scanStart, exitTime := SerialFlow(env, res, prep, d.scan, flip);
      } else {
        prepStart := ParallelPrep(env, res, prep);
        scanStart, exitTime := ParallelScan(env, res, d.scan, flip);
      }
      SetState("Done");
      if log.Some? {
        log.value.Append(LogRecord(id, arrivalTime, prepStart, scanStart, exitTime, Scenario(parallel)));
      }
    }
  }
}
