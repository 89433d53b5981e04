/** The headless stand-ins for the animated sprites (src/core/headless.py):
    entities teleport to their target, staff have a home and a busy flag,
    patients carry the attributes the workflows read and write. Python's
    subclassing of `HeadlessEntity` is modelled by composition: staff and
    patients each own an `Entity` body. */
module HeadlessEntities {
  import opened Sim

  /** Where an entity is and where it is heading, as a value. */
  datatype Spot = Spot(x: int, y: int, tx: int, ty: int) {
    /** The geometric fact the headless `is_at_target` stub stands for. */
    predicate OnTarget() { x == tx && y == ty }
  }

  /** The movements the headless entities make: `move_to` a point, or
      `return_home`. */
  datatype Move = Goto(p: Pos) | Home

  /** A freshly created entity stands on its own target. */
  function Spawn(x0: int, y0: int): Spot {
    Spot(x0, y0, x0, y0)
  }

  /** One movement: teleporting sets position and target together; going
      home moves only an entity that has a home. */
  function Step(s: Spot, home: Option<Pos>, m: Move): Spot {
    match m
    case Goto(p) => Spot(p.x, p.y, p.x, p.y)
    case Home => if home.Some? then Spot(home.value.x, home.value.y, home.value.x, home.value.y) else s
  }

  /** The place after a sequence of movements. */
  function Walk(s: Spot, home: Option<Pos>, moves: seq<Move>): Spot
    decreases |moves|
  {
    if moves == [] then s else Walk(Step(s, home, moves[0]), home, moves[1..])
  }

  /** No movement takes an entity off its target. */
  lemma {:induction false} WalkKeepsOnTarget(s: Spot, home: Option<Pos>, moves: seq<Move>)
    requires s.OnTarget()
    ensures Walk(s, home, moves).OnTarget()
    decreases |moves|
  {
    if moves != [] {
      WalkKeepsOnTarget(Step(s, home, moves[0]), home, moves[1..]);
    }
  }

  /** The stub's constant `true` is the geometric truth: whatever sequence
      of movements an entity makes from where it was created, it ends on its
      target. */
  lemma StubAgreesWithGeometry(x0: int, y0: int, home: Option<Pos>, moves: seq<Move>)
    ensures Walk(Spawn(x0, y0), home, moves).OnTarget()
  {
    WalkKeepsOnTarget(Spawn(x0, y0), home, moves);
  }

  class Entity {
    var x: int
    var y: int
    var targetX: int
    var targetY: int
    const home: Option<Pos>

    /** The entity stands on its target. */
    ghost predicate AtTarget()
      reads this
    {
      x == targetX && y == targetY
    }

    /** The entity's place as a `Spot` value. */
    ghost function Where(): Spot
      reads this
    {
      Spot(x, y, targetX, targetY)
    }

    constructor (x0: int, y0: int, home: Option<Pos>)
      ensures x == x0 && y == y0 && AtTarget() && this.home == home
      ensures Where() == Spawn(x0, y0)
    {
      x, y := x0, y0;
      targetX, targetY := x0, y0;
      this.home := home;
    }

    /** Instant teleport: position and target both become the given point. */
    method MoveTo(tx: int, ty: int)
      modifies this
      ensures x == tx && y == ty && AtTarget()
    {
      targetX, targetY := tx, ty;
      x, y := tx, ty;
    }

    /** `move_to((x, y))`: a tuple argument is unpacked into x and y. */
    method MoveToPoint(p: Pos)
      modifies this
      ensures x == p.x && y == p.y && AtTarget()
    {
      MoveTo(p.x, p.y);
    }

    /** Movement is instant, so an entity is always at its target. */
    function IsAtTarget(): (r: bool)
      ensures r
    {
      true
    }

    /** Only entities that have a home move; the others stay where they are. */
    method ReturnHome()
      modifies this
      ensures home.Some? ==> x == home.value.x && y == home.value.y && AtTarget()
      ensures home.None? ==> x == old(x) && y == old(y) && targetX == old(targetX) && targetY == old(targetY)
      ensures Where() == Step(old(Where()), home, Home)
    {
      if home.Some? {
        MoveTo(home.value.x, home.value.y);
      }
    }

    method CoverPosition(p: Pos)
      modifies this
      ensures x == p.x && y == p.y && AtTarget()
    {
      MoveTo(p.x, p.y);
    }

    method GoToBreak(breakRoomCenter: Pos)
      modifies this
      ensures x == breakRoomCenter.x && y == breakRoomCenter.y && AtTarget()
    {
      MoveTo(breakRoomCenter.x, breakRoomCenter.y);
    }
  }

  /** A staff member; `busyTrace` records every assignment to `busy`, in order. */
  class Staff {
    const body: Entity
    const role: string
    var busy: bool
    var lastUsedTime: real
    ghost var busyTrace: seq<bool>

    constructor (role: string, x: int, y: int)
      ensures fresh(body) && body.x == x && body.y == y && body.AtTarget()
      ensures body.home == Some(Pos(x, y))
      ensures this.role == role && !busy && busyTrace == [] && lastUsedTime == 0.0
    {
      body := new Entity(x, y, Some(Pos(x, y)));
      this.role := role;
      busy := false;
      lastUsedTime := 0.0;
      busyTrace := [];
    }

    method SetBusy(b: bool)
      modifies this
      ensures busy == b && busyTrace == old(busyTrace) + [b]
    {
      busy := b;
      busyTrace := busyTrace + [b];
    }
  }

  /** A patient. The optional fields are the attributes that the workflows
      attach later and test with `hasattr`/`getattr`; `None` means absent. */
  class Patient {
    const body: Entity
    const pId: int
    var state: Option<PState>
    var isLate: bool
    var lateDuration: real
    var hasIv: bool
    var isDifficult: bool
    var patientType: string
    var metrics: map<string, real>
    var clinicalInitDone: bool
    var scanProtocol: Option<string>
    var scanParams: Option<ScanParams>
    var needsIv: Option<bool>
    var isDifficultIv: Option<bool>
    var isInpatient: Option<bool>
    var arrivalTime: Option<real>
    var scanDuration: Option<real>
    var overheadDuration: Option<real>

    constructor (pId: int, x: int, y: int)
      ensures fresh(body) && body.x == x && body.y == y && body.AtTarget() && body.home == None
      ensures this.pId == pId && state == None
      ensures !isLate && lateDuration == 0.0 && !hasIv && !isDifficult
      ensures patientType == "outpatient" && metrics == map[]
      ensures !clinicalInitDone && scanProtocol == None && scanParams == None
      ensures needsIv == None && isDifficultIv == None && isInpatient == None
      ensures arrivalTime == None && scanDuration == None && overheadDuration == None
    {
      body := new Entity(x, y, None);
      this.pId := pId;
      state := None;
      isLate, lateDuration := false, 0.0;
      hasIv, isDifficult := false, false;
      patientType := "outpatient";
      metrics := map[];
      clinicalInitDone := false;
      scanProtocol, scanParams := None, None;
      needsIv, isDifficultIv, isInpatient := None, None, None;
      arrivalTime, scanDuration, overheadDuration := None, None, None;
    }

    /** `set_state`: the animated patient stores the state for its colour. */
    method SetState(s: PState)
      modifies this`state
      ensures state == Some(s)
    {
      state := Some(s);
    }
  }
}
