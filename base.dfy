/** Shared workflow helpers (src/core/workflows/base.py): the sampling fallback
    of `BaseWorkflow.get_time` and the `PositionManager` that hands out grid
    slots in the public area and the two halves of the waiting room. */
module Base {
  import opened Sim

  /** A `PROCESS_TIMES` entry: a plain number or the parameters of a
      triangular distribution. */
  datatype TimeParams = Scalar(value: real) | Triangular(low: real, high: real, mode: real)

  /** `get_time`: an unknown task takes 1.0 minute, a numeric parameter is the
      time itself, and otherwise the time is the triangular sample `draw`. */
  function GetTime(processTimes: map<string, TimeParams>, task: string, draw: real): (r: real)
    ensures task !in processTimes ==> r == 1.0
    ensures task in processTimes && processTimes[task].Scalar? ==> r == processTimes[task].value
    ensures task in processTimes && processTimes[task].Triangular? ==> r == draw
  {
    if task !in processTimes then 1.0
    else match processTimes[task]
      case Scalar(v) => v
      case Triangular(_, _, _) => draw
  }

  /** The areas the position manager knows. */
  datatype Area = Zone1 | WaitingRoomLeft | WaitingRoomRight

  /** A `ROOM_COORDINATES` entry: (start x, start y, width, height). */
  datatype Rect = Rect(startX: int, startY: int, width: int, height: int)

  /** The grid of one area: the first slot, the lowest row limit and the spacing. */
  datatype Grid = Grid(baseX: int, baseY: int, maxY: int, spacing: int)

  /** The grid of each area, from the public room and waiting room rectangles. */
  function GridOf(area: Area, zone1: Rect, waitingRoom: Rect): (g: Grid)
    ensures g.spacing > 0
  {
    match area
      case Zone1 => Grid(100, zone1.startY + 20, zone1.startY + zone1.height - 20, 35)
      case WaitingRoomLeft =>
        Grid(waitingRoom.startX + 20, waitingRoom.startY + 20, waitingRoom.startY + waitingRoom.height - 20, 25)
      case WaitingRoomRight =>
        Grid(waitingRoom.startX + waitingRoom.width - 20, waitingRoom.startY + 20,
             waitingRoom.startY + waitingRoom.height - 20, 25)
  }

  /** Slots per column: at least one, however small the area. */
  function ColumnCapacity(g: Grid): (c: int)
    requires g.spacing > 0
    ensures c >= 1
    ensures c == 1 || c * g.spacing <= g.maxY - g.baseY < (c + 1) * g.spacing
  {
    var q := (g.maxY - g.baseY) / g.spacing;
    if q < 1 then 1 else q
  }

  /** The position of a slot: columns fill top to bottom; the right half of the
      waiting room adds columns leftwards, the other areas rightwards. */
  function SlotPosition(area: Area, g: Grid, slot: nat): Pos
    requires g.spacing > 0
  {
    var cap := ColumnCapacity(g);
    var col := slot / cap;
    var row := slot % cap;
    var x := if area == WaitingRoomRight then g.baseX - col * g.spacing else g.baseX + col * g.spacing;
    Pos(x, g.baseY + row * g.spacing)
  }

  /** The slot is the row-major index of (column, row) in the vertical-first grid. */
  lemma SlotDecomposition(g: Grid, slot: nat)
    requires g.spacing > 0
    ensures 0 <= slot % ColumnCapacity(g) < ColumnCapacity(g)
    ensures slot == (slot / ColumnCapacity(g)) * ColumnCapacity(g) + slot % ColumnCapacity(g)
  {
  }

  /** Distinct slots of an area are drawn at distinct positions. */
  lemma DistinctSlotsDistinctPositions(area: Area, g: Grid, s1: nat, s2: nat)
    requires g.spacing > 0 && s1 != s2
    ensures SlotPosition(area, g, s1) != SlotPosition(area, g, s2)
  {
    var cap := ColumnCapacity(g);
    var c1, r1 := s1 / cap, s1 % cap;
    var c2, r2 := s2 / cap, s2 % cap;
    assert s1 == c1 * cap + r1 && s2 == c2 * cap + r2;
    if c1 == c2 {
      assert r1 != r2;
      assert r1 * g.spacing != r2 * g.spacing by {
        if r1 < r2 { MulStrict(r1, r2, g.spacing); } else { MulStrict(r2, r1, g.spacing); }
      }
    } else {
      assert c1 * g.spacing != c2 * g.spacing by {
        if c1 < c2 { MulStrict(c1, c2, g.spacing); } else { MulStrict(c2, c1, g.spacing); }
      }
    }
  }

  lemma MulStrict(a: int, b: int, k: int)
    requires a < b && k > 0
    ensures a * k < b * k
  {
    assert b * k - a * k == (b - a) * k;
  }

  /** Later slots never lie further right in the right half of the waiting
      room, nor further left elsewhere. */
  lemma ColumnsFillOutward(area: Area, g: Grid, s1: nat, s2: nat)
    requires g.spacing > 0 && s1 <= s2
    ensures area == WaitingRoomRight ==> SlotPosition(area, g, s2).x <= SlotPosition(area, g, s1).x
    ensures area != WaitingRoomRight ==> SlotPosition(area, g, s1).x <= SlotPosition(area, g, s2).x
  {
    var cap := ColumnCapacity(g);
    DivMonotone(s1, s2, cap);
    var c1, c2 := s1 / cap, s2 / cap;
    if c1 < c2 {
      MulStrict(c1, c2, g.spacing);
    }
  }

  lemma DivMonotone(a: nat, b: nat, d: int)
    requires a <= b && d > 0
    ensures a / d <= b / d
  {
    var qa, qb := a / d, b / d;
    assert qa * d <= a;
    assert b < (qb + 1) * d;
    if qa > qb {
      MulMonotone(qb + 1, qa, d);
    }
  }

  lemma MulMonotone(a: int, b: int, k: int)
    requires a <= b && k > 0
    ensures a * k <= b * k
  {
    assert b * k - a * k == (b - a) * k;
  }

  /** The occupied slot indices at or after `from`. */
  function TakenFrom(occ: map<int, int>, from: int): set<int> {
    set k | k in occ && k >= from
  }

  lemma TakenFromShrinks(occ: map<int, int>, from: int)
    requires from in occ
    ensures |TakenFrom(occ, from + 1)| < |TakenFrom(occ, from)|
  {
    assert TakenFrom(occ, from) == TakenFrom(occ, from + 1) + {from};
  }

  /** The smallest slot index at or after `from` that is not occupied. */
  function FirstFreeFrom(occ: map<int, int>, from: nat): (s: nat)
    ensures s >= from && s !in occ
    ensures forall j :: from <= j < s ==> j in occ
    decreases |TakenFrom(occ, from)|
  {
    if from in occ then
      TakenFromShrinks(occ, from);
      FirstFreeFrom(occ, from + 1)
    else from
  }

  /** The smallest slot index not occupied. */
  function FirstFree(occ: map<int, int>): (s: nat)
    ensures s !in occ
    ensures forall j :: 0 <= j < s ==> j in occ
  {
    FirstFreeFrom(occ, 0)
  }

  /** The first free slot is unique: no other index is free with every smaller
      index taken. */
  lemma FirstFreeUnique(occ: map<int, int>, s: nat)
    requires s !in occ && forall j :: 0 <= j < s ==> j in occ
    ensures FirstFree(occ) == s
  {
  }

  /** Releasing an occupied slot below the first free one makes that slot the
      next one handed out; releasing any other slot leaves the next one alone. */
  lemma ReleaseThenReuse(occ: map<int, int>, s: nat)
    ensures FirstFree(occ - {s}) ==
              if s in occ && s < FirstFree(occ) then s else FirstFree(occ)
  {
    var f := FirstFree(occ);
    if s in occ && s < f {
      FirstFreeUnique(occ - {s}, s);
    } else {
      assert f !in occ - {s};
      forall j | 0 <= j < f
        ensures j in occ - {s}
      {
        assert j in occ;
      }
      FirstFreeUnique(occ - {s}, f);
    }
  }

  /** Taking a free slot and then releasing it gives the occupancy back. */
  lemma TakeThenRelease(occ: map<Area, map<int, int>>, area: Area, s: int, pId: int)
    requires area in occ && s !in occ[area]
    ensures var taken := occ[area := occ[area][s := pId]];
            taken[area := taken[area] - {s}] == occ
  {
    var inner := occ[area][s := pId] - {s};
    assert inner == occ[area];
  }

  /** The `PositionManager`: for each area, the occupied slot indices and the
      patient in each. The room rectangles are its configuration. */
  class PositionManager {
    const zone1: Rect
    const waitingRoom: Rect
    var occupancy: map<Area, map<int, int>>

    ghost predicate Valid()
      reads this`occupancy
    {
      Zone1 in occupancy && WaitingRoomLeft in occupancy && WaitingRoomRight in occupancy
    }

    constructor (zone1: Rect, waitingRoom: Rect)
      ensures Valid() && this.zone1 == zone1 && this.waitingRoom == waitingRoom
      ensures occupancy == map[Zone1 := map[], WaitingRoomLeft := map[], WaitingRoomRight := map[]]
    {
      this.zone1 := zone1;
      this.waitingRoom := waitingRoom;
      occupancy := map[Zone1 := map[], WaitingRoomLeft := map[], WaitingRoomRight := map[]];
    }

    /** `get_grid_pos`: takes the smallest free slot of the area for the
        patient and returns its position; no other slot or area changes. */
    method GetGridPos(area: Area, pId: int) returns (pos: Pos, slot: nat)
      requires Valid()
      modifies this`occupancy
      ensures Valid()
      ensures slot == FirstFree(old(occupancy)[area])
      ensures occupancy == old(occupancy)[area := old(occupancy)[area][slot := pId]]
      ensures pos == SlotPosition(area, GridOf(area, zone1, waitingRoom), slot)
    {
      var g := GridOf(area, zone1, waitingRoom);
      var occupied := occupancy[area];
      var slotIdx: nat := 0;
      while slotIdx in occupied
        invariant occupancy == old(occupancy) && occupied == occupancy[area]
        invariant forall j :: 0 <= j < slotIdx ==> j in occupied
        decreases |TakenFrom(occupied, slotIdx)|
      {
        TakenFromShrinks(occupied, slotIdx);
        slotIdx := slotIdx + 1;
      }
      FirstFreeUnique(occupied, slotIdx);
      var columnCapacity := ColumnCapacity(g);
      var col := slotIdx / columnCapacity;
      var row := slotIdx % columnCapacity;
      var x := if area == WaitingRoomRight then g.baseX - col * g.spacing else g.baseX + col * g.spacing;
      var y := g.baseY + row * g.spacing;
      occupancy := occupancy[area := occupied[slotIdx := pId]];
      pos, slot := Pos(x, y), slotIdx;
    }

    /** `release_pos`: frees exactly that slot when it is taken, and is a no-op
        otherwise. */
    method ReleasePos(area: Area, slot: nat)
      requires Valid()
      modifies this`occupancy
      ensures Valid()
      ensures occupancy == old(occupancy)[area := old(occupancy)[area] - {slot}]
      ensures slot !in old(occupancy)[area] ==> occupancy == old(occupancy)
    {
      if slot in occupancy[area] {
        occupancy := occupancy[area := occupancy[area] - {slot}];
      } else {
        assert occupancy[area] - {slot} == occupancy[area];
      }
    }
  }
}
