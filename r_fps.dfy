/**
 * Uncapped-framerate interpolation of moving sector and side fields
 * (prboom2/src/r_fps.c): per interpolation entry, the field values of the
 * previous tic (`oldipos`), a backup of the current values (`bakipos`)
 * taken before a frame draws interpolated values, and the restore that
 * puts the current values back.
 */
module Interpolation {
  import opened Wrappers

  /** FRACUNIT: 1.0 in 16.16 fixed point. */
  const FracUnit := 0x1_0000

  /** The interpolated fields of a sector_t. */
  class Sector {
    var floorHeight: int
    var ceilingHeight: int
    var floorXOffs: int
    var floorYOffs: int
    var ceilingXOffs: int
    var ceilingYOffs: int

    constructor (floorHeight: int, ceilingHeight: int)
      ensures this.floorHeight == floorHeight && this.ceilingHeight == ceilingHeight
      ensures floorXOffs == 0 && floorYOffs == 0 && ceilingXOffs == 0 && ceilingYOffs == 0
    {
      this.floorHeight := floorHeight;
      this.ceilingHeight := ceilingHeight;
      floorXOffs := 0;
      floorYOffs := 0;
      ceilingXOffs := 0;
      ceilingYOffs := 0;
    }
  }

  /** The interpolated fields of a side_t. */
  class Side {
    var rowOffset: int
    var textureOffset: int

    constructor (rowOffset: int, textureOffset: int)
      ensures this.rowOffset == rowOffset && this.textureOffset == textureOffset
    {
      this.rowOffset := rowOffset;
      this.textureOffset := textureOffset;
    }
  }

  /**
   * An interpolation_t: its type and the sector or side it addresses. The
   * last case stands for a type value outside the enumeration.
   */
  datatype Interpolation =
    | SectorFloor(sector: Sector)
    | SectorCeiling(sector: Sector)
    | WallPanning(side: Side)
    | FloorPanning(sector: Sector)
    | CeilingPanning(sector: Sector)
    | Unrecognised

  /** fixed2_t: the two saved slots of an entry. */
  datatype Fixed2 = Fixed2(v0: int, v1: int)

  /** How many fields an entry interpolates: one height, or two panning offsets. */
  function SlotCount(e: Interpolation): (n: nat)
    ensures n <= 2
    ensures n == 0 <==> e.Unrecognised?
    ensures n == 1 <==> e.SectorFloor? || e.SectorCeiling?
  {
    match e
    case SectorFloor(_) => 1
    case SectorCeiling(_) => 1
    case Unrecognised => 0
    case _ => 2
  }

  /** The object an entry writes through. */
  function Footprint(e: Interpolation): set<object> {
    match e
    case WallPanning(side) => {side}
    case Unrecognised => {}
    case _ => {e.sector}
  }

  /** A snapshot of every interpolated field of the addressed object. */
  datatype Fields =
    | SectorFields(floorHeight: int, ceilingHeight: int, floorXOffs: int,
                   floorYOffs: int, ceilingXOffs: int, ceilingYOffs: int)
    | SideFields(rowOffset: int, textureOffset: int)
    | NoFields

  /** Whether a snapshot has the shape of the entry's object. */
  predicate Matches(e: Interpolation, st: Fields) {
    match e
    case WallPanning(_) => st.SideFields?
    case Unrecognised => st.NoFields?
    case _ => st.SectorFields?
  }

  /** The current fields of the object an entry addresses. */
  function State(e: Interpolation): (st: Fields)
    reads Footprint(e)
    ensures Matches(e, st)
  {
    match e
    case WallPanning(s) => SideFields(s.rowOffset, s.textureOffset)
    case Unrecognised => NoFields
    case _ =>
      var s := e.sector;
      SectorFields(s.floorHeight, s.ceilingHeight, s.floorXOffs, s.floorYOffs, s.ceilingXOffs, s.ceilingYOffs)
  }

  /** The entry's field(s) within a snapshot: slot 0 and, for panning, slot 1. */
  function SlotsOf(e: Interpolation, st: Fields): Fixed2
    requires Matches(e, st)
  {
    match e
    case SectorFloor(_) => Fixed2(st.floorHeight, 0)
    case SectorCeiling(_) => Fixed2(st.ceilingHeight, 0)
    case WallPanning(_) => Fixed2(st.rowOffset, st.textureOffset)
    case FloorPanning(_) => Fixed2(st.floorXOffs, st.floorYOffs)
    case CeilingPanning(_) => Fixed2(st.ceilingXOffs, st.ceilingYOffs)
    case Unrecognised => Fixed2(0, 0)
  }

  /** The snapshot with the entry's field(s) replaced by the used slots of v. */
  function WithSlots(e: Interpolation, st: Fields, v: Fixed2): (r: Fields)
    requires Matches(e, st)
    ensures Matches(e, r)
  {
    match e
    case SectorFloor(_) => st.(floorHeight := v.v0)
    case SectorCeiling(_) => st.(ceilingHeight := v.v0)
    case WallPanning(_) => st.(rowOffset := v.v0, textureOffset := v.v1)
    case FloorPanning(_) => st.(floorXOffs := v.v0, floorYOffs := v.v1)
    case CeilingPanning(_) => st.(ceilingXOffs := v.v0, ceilingYOffs := v.v1)
    case Unrecognised => st
  }

  /** A saved pair with the entry's used slots replaced by those of v. */
  function Saved(p: Fixed2, e: Interpolation, v: Fixed2): (r: Fixed2)
    ensures SlotCount(e) >= 1 ==> r.v0 == v.v0
    ensures SlotCount(e) == 0 ==> r.v0 == p.v0
    ensures r.v1 == (if SlotCount(e) == 2 then v.v1 else p.v1)
  {
    match SlotCount(e)
    case 0 => p
    case 1 => p.(v0 := v.v0)
    case _ => v
  }

  /** Agreement of two pairs on the slots the entry uses. */
  predicate SameSlots(e: Interpolation, a: Fixed2, b: Fixed2) {
    (SlotCount(e) >= 1 ==> a.v0 == b.v0) && (SlotCount(e) == 2 ==> a.v1 == b.v1)
  }

  /**
   * Writing slots and reading them back yields them; fields the entry does
   * not use keep their values, so writing the slots a snapshot already
   * holds gives back the snapshot.
   */
  lemma SlotsRoundTrip(e: Interpolation, st: Fields, v: Fixed2)
    requires Matches(e, st)
    ensures SameSlots(e, SlotsOf(e, WithSlots(e, st, v)), v)
    ensures SameSlots(e, v, SlotsOf(e, st)) ==> WithSlots(e, st, v) == st
  {
  }

  /** The interpolated value of one field: old + FixedMul(cur - old, ratio). */
  function Lerp(oldValue: int, cur: int, smoothRatio: int, fixedMul: (int, int) -> int): int {
    oldValue + fixedMul(cur - oldValue, smoothRatio)
  }

  /** Both slots interpolated between the previous tic's and the current values. */
  function Interpolated(oldPos: Fixed2, cur: Fixed2, smoothRatio: int, fixedMul: (int, int) -> int): Fixed2 {
    Fixed2(Lerp(oldPos.v0, cur.v0, smoothRatio, fixedMul), Lerp(oldPos.v1, cur.v1, smoothRatio, fixedMul))
  }

  /**
   * With a FixedMul that maps 0 ratio to 0 and FRACUNIT to the identity, a
   * ratio of 0 draws the previous tic's position and a ratio of FRACUNIT
   * the current one.
   */
  lemma LerpEndpoints(oldValue: int, cur: int, fixedMul: (int, int) -> int)
    requires forall x :: fixedMul(x, 0) == 0
    requires forall x :: fixedMul(x, FracUnit) == x
    ensures Lerp(oldValue, cur, 0, fixedMul) == oldValue
    ensures Lerp(oldValue, cur, FracUnit, fixedMul) == cur
  {
  }

  /**
   * The restore undoes the interpolation: backing up the entry's fields,
   * overwriting them with interpolated values and writing the backup back
   * returns the object to its snapshot, whatever FixedMul computes.
   */
  lemma RestoreUndoesInterpolation(e: Interpolation, st: Fields, bak: Fixed2, oldPos: Fixed2,
                                   smoothRatio: int, fixedMul: (int, int) -> int)
    requires Matches(e, st)
    ensures var cur := SlotsOf(e, st);
            WithSlots(e, WithSlots(e, st, Interpolated(oldPos, cur, smoothRatio, fixedMul)),
                      Saved(bak, e, cur)) == st
  {
  }

  /** The thinkers whose movement is interpolated, and any other thinker. */
  datatype Thinker =
    | MoveFloor(sector: Sector)
    | PlatRaise(sector: Sector)
    | MoveCeiling(sector: Sector)
    | VerticalDoor(sector: Sector)
    | MoveElevator(sector: Sector)
    | SideScroller(affectee: int)
    | FloorScroller(affectee: int)
    | CeilingScroller(affectee: int)
    | OtherThinker

  /**
   * R_InterpolationGetData: the (at most two) entries a thinker needs;
   * None stands for a NULL position pointer. A scroller's affectee indexes
   * the level's sides or sectors; the plain and the control scroller of
   * each kind behave alike.
   */
  function InterpolationGetData(th: Thinker, sides: seq<Side>, sectors: seq<Sector>)
    : (r: (Option<Interpolation>, Option<Interpolation>))
    requires th.SideScroller? ==> 0 <= th.affectee < |sides|
    requires th.FloorScroller? || th.CeilingScroller? ==> 0 <= th.affectee < |sectors|
    ensures th.OtherThinker? <==> r.0.None?
    ensures r.1.Some? <==> th.MoveElevator?
    ensures th.MoveElevator? ==> r.0 == Some(SectorFloor(th.sector)) && r.1 == Some(SectorCeiling(th.sector))
    ensures th.PlatRaise? || th.MoveFloor? ==> r.0 == Some(SectorFloor(th.sector))
    ensures th.MoveCeiling? || th.VerticalDoor? ==> r.0 == Some(SectorCeiling(th.sector))
    ensures r.0.Some? ==> !r.0.value.Unrecognised?
  {
    match th
    case MoveFloor(s) => (Some(SectorFloor(s)), None)
    case PlatRaise(s) => (Some(SectorFloor(s)), None)
    case MoveCeiling(s) => (Some(SectorCeiling(s)), None)
    case VerticalDoor(s) => (Some(SectorCeiling(s)), None)
    case MoveElevator(s) => (Some(SectorFloor(s)), Some(SectorCeiling(s)))
    case SideScroller(k) => (Some(WallPanning(sides[k])), None)
    case FloorScroller(k) => (Some(FloorPanning(sectors[k])), None)
    case CeilingScroller(k) => (Some(CeilingPanning(sectors[k])), None)
    case OtherThinker => (None, None)
  }

  /** The interpolation table: curipos with its oldipos and bakipos slots. */
  class Interpolator {
    var curipos: array<Interpolation>
    var oldipos: array<Fixed2>
    var bakipos: array<Fixed2>

    ghost predicate Valid()
      reads this
    {
      oldipos.Length == curipos.Length && bakipos.Length == curipos.Length && oldipos != bakipos
    }

    constructor (entries: seq<Interpolation>)
      ensures Valid() && curipos[..] == entries
      ensures fresh(curipos) && fresh(oldipos) && fresh(bakipos)
    {
      curipos := new Interpolation[|entries|](k requires 0 <= k < |entries| => entries[k]);
      oldipos := new Fixed2[|entries|](_ => Fixed2(0, 0));
      bakipos := new Fixed2[|entries|](_ => Fixed2(0, 0));
    }

    /**
     * R_CopyInterpToOld: saves the entry's current field(s) as the
     * previous tic's; the sector or side itself is only read.
     */
    method CopyInterpToOld(i: int)
      requires Valid() && 0 <= i < curipos.Length
      modifies oldipos
      ensures oldipos[i] == Saved(old(oldipos[i]), curipos[i], SlotsOf(curipos[i], State(curipos[i])))
      ensures forall j :: 0 <= j < oldipos.Length && j != i ==> oldipos[j] == old(oldipos[j])
    {
      match curipos[i] {
        case SectorFloor(s) =>
          oldipos[i] := oldipos[i].(v0 := s.floorHeight);
        case SectorCeiling(s) =>
          oldipos[i] := oldipos[i].(v0 := s.ceilingHeight);
        case WallPanning(s) =>
          oldipos[i] := oldipos[i].(v0 := s.rowOffset);
          oldipos[i] := oldipos[i].(v1 := s.textureOffset);
        case FloorPanning(s) =>
          oldipos[i] := oldipos[i].(v0 := s.floorXOffs);
          oldipos[i] := oldipos[i].(v1 := s.floorYOffs);
        case CeilingPanning(s) =>
          oldipos[i] := oldipos[i].(v0 := s.ceilingXOffs);
          oldipos[i] := oldipos[i].(v1 := s.ceilingYOffs);
        case Unrecognised =>
      }
    }

    /** R_CopyBakToInterp: writes the backup back into the entry's field(s). */
    method CopyBakToInterp(i: int)
      requires Valid() && 0 <= i < curipos.Length
      modifies Footprint(curipos[i])
      ensures State(curipos[i]) == WithSlots(curipos[i], old(State(curipos[i])), bakipos[i])
    {
      match curipos[i] {
        case SectorFloor(s) =>
          s.floorHeight := bakipos[i].v0;
        case SectorCeiling(s) =>
          s.ceilingHeight := bakipos[i].v0;
        case WallPanning(s) =>
          s.rowOffset := bakipos[i].v0;
          s.textureOffset := bakipos[i].v1;
        case FloorPanning(s) =>
          s.floorXOffs := bakipos[i].v0;
          s.floorYOffs := bakipos[i].v1;
        case CeilingPanning(s) =>
          s.ceilingXOffs := bakipos[i].v0;
          s.ceilingYOffs := bakipos[i].v1;
        case Unrecognised =>
      }
    }

    /**
     * R_DoAnInterpolation: backs up the entry's current field(s) in
     * bakipos[i], then draws old + FixedMul(cur - old, smoothRatio) in
     * their place; an unrecognised entry is left alone.
     */
    method DoAnInterpolation(i: int, smoothRatio: int, fixedMul: (int, int) -> int)
      requires Valid() && 0 <= i < curipos.Length
      modifies bakipos, Footprint(curipos[i])
      ensures bakipos[i] == Saved(old(bakipos[i]), curipos[i], SlotsOf(curipos[i], old(State(curipos[i]))))
      ensures forall j :: 0 <= j < bakipos.Length && j != i ==> bakipos[j] == old(bakipos[j])
      ensures State(curipos[i]) ==
                WithSlots(curipos[i], old(State(curipos[i])),
                          Interpolated(oldipos[i], SlotsOf(curipos[i], old(State(curipos[i]))),
                                       smoothRatio, fixedMul))
    {
      match curipos[i] {
        case SectorFloor(s) =>
          var pos := s.floorHeight;
          bakipos[i] := bakipos[i].(v0 := pos);
          s.floorHeight := Lerp(oldipos[i].v0, pos, smoothRatio, fixedMul);
        case SectorCeiling(s) =>
          var pos := s.ceilingHeight;
          bakipos[i] := bakipos[i].(v0 := pos);
          s.ceilingHeight := Lerp(oldipos[i].v0, pos, smoothRatio, fixedMul);
        case WallPanning(s) =>
          var pos := s.rowOffset;
          bakipos[i] := bakipos[i].(v0 := pos);
          s.rowOffset := Lerp(oldipos[i].v0, pos, smoothRatio, fixedMul);
          pos := s.textureOffset;
          bakipos[i] := bakipos[i].(v1 := pos);
          s.textureOffset := Lerp(oldipos[i].v1, pos, smoothRatio, fixedMul);
        case FloorPanning(s) =>
          var pos := s.floorXOffs;
          bakipos[i] := bakipos[i].(v0 := pos);
          s.floorXOffs := Lerp(oldipos[i].v0, pos, smoothRatio, fixedMul);
          pos := s.floorYOffs;
          bakipos[i] := bakipos[i].(v1 := pos);
          s.floorYOffs := Lerp(oldipos[i].v1, pos, smoothRatio, fixedMul);
        case CeilingPanning(s) =>
          var pos := s.ceilingXOffs;
          bakipos[i] := bakipos[i].(v0 := pos);
          s.ceilingXOffs := Lerp(oldipos[i].v0, pos, smoothRatio, fixedMul);
          pos := s.ceilingYOffs;
          bakipos[i] := bakipos[i].(v1 := pos);
          s.ceilingYOffs := Lerp(oldipos[i].v1, pos, smoothRatio, fixedMul);
        case Unrecognised =>
          return;
      }
    }
  }
}
