/** Shared vocabulary of the MRI patient-flow model: optional values, positions,
    the virtual clock, the resource table (the `resources` dict of the simulation)
    and the interchangeable magnet pool with its per-instance metadata. */
module Sim {

  datatype Option<T> = None | Some(value: T) {
    function GetOr(default: T): T {
      if Some? then value else default
    }
  }

  /** `dict.get(k, default)`. */
  function MapGet<K, V>(m: map<K, V>, k: K, default: V): V {
    if k in m then m[k] else default
  }

  /** Resource counts with one more unit of `k` held. */
  function Plus(count: map<string, nat>, k: string): map<string, nat> {
    count[k := MapGet(count, k, 0) + 1]
  }

  /** Giving back the unit just taken restores the counts. */
  lemma PlusThenMinus(count: map<string, nat>, k: string)
    requires k in count
    ensures Plus(count, k)[k := Plus(count, k)[k] - 1] == count
  {
  }

  /** A Python exception that a call raises. */
  datatype PyError = AttributeError | TypeError | IndexError | KeyError

  datatype Outcome = Pass | Fail(error: PyError)

  /** A screen position (pixel coordinates). */
  datatype Pos = Pos(x: int, y: int)

  /** States written to the state-change log by the workflows. */
  datatype PState = Arriving | Registered | Changing | Prepped | Scanning | Exited

  /** Visual/operational status of a magnet room. */
  datatype VisualState = Clean | Busy | Dirty

  /** A patient's `scan_params`: a (min, mode, max) tuple or list, a dict with
      optional 'mean'/'std' keys, or any other value. */
  datatype ScanParams =
    | TupleParams(items: seq<real>)
    | DictParams(mean: Option<real>, std: Option<real>, otherKeys: bool)
    | OtherParams(truthy: bool)

  /** The virtual clock of the discrete-event environment. */
  class Env {
    var now: real

    constructor (start: real)
      ensures now == start
    {
      now := start;
    }

    /** A timed wait: SimPy refuses a negative delay. */
    method Timeout(d: real)
      requires d >= 0.0
      modifies this
      ensures now == old(now) + d
    {
      now := now + d;
    }
  }

  /** One step of the resource discipline: a request granted (with its
      priority when the resource takes one) or a unit given back. */
  datatype ResEvent = Acquired(key: string, priority: Option<int>) | Released(key: string)

  /** Units of `k` held after a sequence of events. */
  function Held(events: seq<ResEvent>, k: string): int {
    if |events| == 0 then 0
    else
      var e := events[|events| - 1];
      Held(events[..|events| - 1], k)
      + (if e == Released(k) then -1 else if e.Acquired? && e.key == k then 1 else 0)
  }

  /** Taking a unit of `a` and of `b`, then giving back `b` and `a`,
      leaves the counts as they were. */
  lemma TakeTwoThenRelease(before: map<string, nat>, held: map<string, nat>, after: map<string, nat>, a: string, b: string)
    requires a in before && b in before && a != b
    requires held == before[a := before[a] + 1][b := before[b] + 1]
    requires after == held[b := held[b] - 1][a := held[a] - 1]
    ensures after == before
  {
  }

  /** Every count equals the grants minus the releases recorded for its key. */
  ghost predicate Tallied(count: map<string, nat>, events: seq<ResEvent>) {
    forall k {:trigger Held(events, k)} :: k in count ==> count[k] == Held(events, k)
  }

  lemma HeldAppend(events: seq<ResEvent>, e: ResEvent, k: string)
    ensures Held(events + [e], k) ==
              Held(events, k) + (if e == Released(k) then -1 else if e.Acquired? && e.key == k then 1 else 0)
  {
    assert (events + [e])[..|events|] == events;
  }

  /** Events that touch only keys other than `k` leave its holding alone. */
  lemma {:induction false} HeldOtherKeys(events: seq<ResEvent>, more: seq<ResEvent>, k: string)
    requires forall i :: 0 <= i < |more| ==> more[i].key != k
    ensures Held(events + more, k) == Held(events, k)
  {
    if |more| > 0 {
      var front := more[..|more| - 1];
      HeldOtherKeys(events, front, k);
      assert events + more == (events + front) + [more[|more| - 1]];
      HeldAppend(events + front, more[|more| - 1], k);
    } else {
      assert events + more == events;
    }
  }

  /** The simulation's `resources` dict, restricted to its capacity-limited
      resources: a unit count per key. A request is granted in this model only
      while a unit is free (the waiting itself is not modelled). Magnet resources
      also carry the `last_exam_type` attribute the turnover rule reads.
      `events` records every grant and release, in order. */
  class ResourceTable {
    const capacity: map<string, nat>
    var count: map<string, nat>
    var lastExamType: map<string, Option<string>>
    ghost var events: seq<ResEvent>

    /** Every count is within capacity and equals the grants minus the
        releases recorded for its key. */
    ghost predicate Valid()
      reads this`count, this`events
    {
      && count.Keys == capacity.Keys
      && (forall k :: k in count ==> count[k] <= capacity[k])
      && Tallied(count, events)
    }

    /** `count < capacity` for a resource that exists. */
    predicate Free(k: string)
      reads this`count
    {
      k in count && k in capacity && count[k] < capacity[k]
    }

    constructor (caps: map<string, nat>)
      ensures Valid() && capacity == caps
      ensures count == map k | k in caps :: 0
      ensures lastExamType == map[] && events == []
    {
      capacity := caps;
      count := map k | k in caps :: 0;
      lastExamType := map[];
      events := [];
    }

    /** A request on resource `k` is granted: one more unit is held. */
    method Acquire(k: string, priority: Option<int>)
      requires Valid() && Free(k)
      modifies this`count, this`events
      ensures Valid()
      ensures count == old(count)[k := old(count)[k] + 1]
      ensures events == old(events) + [Acquired(k, priority)]
    {
      forall j | j in count
        ensures Held(events + [Acquired(k, priority)], j) == (if j == k then count[j] + 1 else count[j])
      {
        HeldAppend(events, Acquired(k, priority), j);
      }
      count := count[k := count[k] + 1];
      events := events + [Acquired(k, priority)];
    }

    /** A held unit of resource `k` is given back. */
    method Release(k: string)
      requires Valid() && k in count && count[k] > 0
      modifies this`count, this`events
      ensures Valid()
      ensures count == old(count)[k := old(count)[k] - 1]
      ensures events == old(events) + [Released(k)]
    {
      forall j | j in count
        ensures Held(events + [Released(k)], j) == (if j == k then count[j] - 1 else count[j])
      {
        HeldAppend(events, Released(k), j);
      }
      count := count[k := count[k] - 1];
      events := events + [Released(k)];
    }

    /** Sets the `last_exam_type` attribute of magnet resource `k`. */
    method SetLastExamType(k: string, exam: string)
      modifies this`lastExamType
      ensures lastExamType == old(lastExamType)[k := Some(exam)]
    {
      lastExamType := lastExamType[k := Some(exam)];
    }
  }

  /** One magnet configuration dict of the pool: identity, the key of its own
      resource, its location and display name, and its mutable visual state.
      `visualTrace` records every assignment to the visual state, in order. */
  class MagnetConfig {
    const id: string
    const resKey: string
    const loc: Pos
    const name: string
    var visualState: VisualState
    ghost var visualTrace: seq<VisualState>

    constructor (id: string, resKey: string, loc: Pos, name: string)
      ensures this.id == id && this.resKey == resKey && this.loc == loc && this.name == name
      ensures visualState == Clean && visualTrace == []
    {
      this.id := id;
      this.resKey := resKey;
      this.loc := loc;
      this.name := name;
      visualState := Clean;
      visualTrace := [];
    }

    method SetVisual(v: VisualState)
      modifies this
      ensures visualState == v && visualTrace == old(visualTrace) + [v]
    {
      visualState := v;
      visualTrace := visualTrace + [v];
    }
  }

  /** The magnet pool (a store of capacity 2): `get` hands out the oldest
      configuration, `put` appends one. */
  class MagnetPool {
    const capacity: nat
    var items: seq<MagnetConfig>

    constructor (capacity: nat)
      ensures this.capacity == capacity && items == []
    {
      this.capacity := capacity;
      items := [];
    }

    method Get() returns (c: MagnetConfig)
      requires |items| > 0
      modifies this
      ensures c == old(items)[0] && items == old(items)[1..]
    {
      c := items[0];
      items := items[1..];
    }

    method Put(c: MagnetConfig)
      requires |items| < capacity
      modifies this
      ensures items == old(items) + [c]
    {
      items := items + [c];
    }
  }
}
