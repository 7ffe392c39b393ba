/**
 * `AdS_Jc`: the two five-dimensional vacua glued across a brane, in the
 * Randall-Sundrum (`RS`) or Dark Bubble (`DB`) arrangement chosen by the
 * `vacua_type` string. The type fixes an ordered list of parts ending with
 * the normal-vector arrow; the animation builders pick parts by Python index.
 */
module AdsJc {
  import opened Python
  import opened Anim
  import opened Style

  /** The parts of either arrangement, and the group as a whole (the
      target of `self.object.get_right()`). */
  datatype AdsPart =
    | AdsBrane | AdskmRS | InTextRS | AdskpRS | OutTextRS | Sym | ArrowRS
    | AdskmDB | InTextDB | AdskpDB | OutTextDB | ArrowDB
    | WholeObject

  /** The two `vacua_type` values the constructor tests for. */
  datatype Vacua = RS | DB

  /** The arrangement a `vacua_type` string selects; None for any other
      string. */
  function VacuaOf(vacuaType: string): Option<Vacua>
  {
    if vacuaType == "RS" then Some(RS)
    else if vacuaType == "DB" then Some(DB)
    else None
  }

  /** `self.object` for an arrangement; an unrecognised type builds none. */
  function ObjectParts(v: Option<Vacua>): (r: Option<seq<AdsPart>>)
    ensures r.Some? <==> v.Some?
    ensures r.Some? ==> 6 <= |r.value|
  {
    match v
    case None => None
    case Some(RS) => Some([AdsBrane, AdskmRS, InTextRS, AdskpRS, OutTextRS, Sym, ArrowRS])
    case Some(DB) => Some([AdsBrane, AdskmDB, InTextDB, AdskpDB, OutTextDB, ArrowDB])
  }

  /** Reading `self.object`: an AttributeError when the type built none. */
  function ObjectGroup(v: Option<Vacua>): (r: Result<seq<AdsPart>>)
    ensures r.Ok? <==> v.Some?
    ensures r.Err? ==> r.error == AttributeError
  {
    match ObjectParts(v)
    case Some(ps) => Ok(ps)
    case None => Err(AttributeError)
  }

  /** The arrow of an arrangement. */
  function ArrowOf(v: Vacua): AdsPart
  {
    if v == RS then ArrowRS else ArrowDB
  }

  /** RS has seven parts and DB six; in both the brane comes first and the
      arrow last, and no part is listed twice. */
  lemma ObjectLayout(v: Vacua)
    ensures var ps := ObjectParts(Some(v)).value;
            |ps| == (if v == RS then 7 else 6) &&
            ps[0] == AdsBrane && ps[|ps| - 1] == ArrowOf(v) &&
            WholeObject !in ps &&
            forall i, j :: 0 <= i < j < |ps| ==> ps[i] != ps[j]
  {
  }

  /** `fade_in`: every part but the arrow. */
  function FadeInObject(v: Option<Vacua>, rt: real := 1.0): (r: Result<Anim<AdsPart>>)
    ensures r.Ok? <==> v.Some?
  {
    var ps :- ObjectGroup(v);
    Ok(FadeIn(Slice(ps, None, Some(-1)), rt))
  }

  /** `fade_in_arrow`: the arrow, `object[-1]`. */
  function FadeInArrow(v: Option<Vacua>, rt: real := 2.0): (r: Result<Anim<AdsPart>>)
    ensures r.Ok? <==> v.Some?
  {
    var ps :- ObjectGroup(v);
    Ok(FadeIn([ps[|ps| - 1]], rt))
  }

  /** `show_symmetry`: fade out `object[-3]`, then turn `object[-4]` half a
      turn about the brane's centre on the axis [0, -1, 0]. */
  function ShowSymmetry(v: Option<Vacua>, rt: real := 2.0): (r: Result<Anim<AdsPart>>)
    ensures r.Ok? <==> v.Some?
  {
    var ps :- ObjectGroup(v);
    Ok(Succession([FadeOut([ps[|ps| - 3]], rt / 2.0),
                   Rotate([ps[|ps| - 4]], 180.0, CenterOf(ps[0]), Vec(0, -1, 0), rt / 2.0)]))
  }

  /** `restore_symmetry`: turn `object[-4]` back on the axis [0, 1, 0],
      then fade `object[-3]` in again. */
  function RestoreSymmetry(v: Option<Vacua>, rt: real := 2.0): (r: Result<Anim<AdsPart>>)
    ensures r.Ok? <==> v.Some?
  {
    var ps :- ObjectGroup(v);
    Ok(Succession([Rotate([ps[|ps| - 4]], 180.0, CenterOf(ps[0]), Vec(0, 1, 0), rt / 2.0),
                   FadeIn([ps[|ps| - 3]], rt / 2.0)]))
  }

  /** `show_n_vector_rs`: the arrow moves onto the brane, turns half a turn
      about the brane's centre, then moves to the group's right edge towards
      a copy that was turned half a turn from the arrow's heading when the
      method was called, which is the heading the `Rotate` left it at. */
  function ShowNVectorRS(v: Option<Vacua>): (r: Result<Anim<AdsPart>>)
    ensures r.Ok? <==> v.Some?
  {
    var ps :- ObjectGroup(v);
    var arrow, center := ps[|ps| - 1], CenterOf(ps[0]);
    Ok(Succession([Animate([arrow], [MoveTo(center)], DefaultRunTime),
                   Rotate([arrow], 180.0, center, Vec(0, 0, 1), DefaultRunTime),
                   Animate([arrow], [RotateBy(180.0), MoveTo(RightEdgeOf(WholeObject))], DefaultRunTime)]))
  }

  /** `show_n_vector_db`: the arrow moves straight to the group's right
      edge. */
  function ShowNVectorDB(v: Option<Vacua>): (r: Result<Anim<AdsPart>>)
    ensures r.Ok? <==> v.Some?
  {
    var ps :- ObjectGroup(v);
    Ok(Succession([Animate([ps[|ps| - 1]], [MoveTo(RightEdgeOf(WholeObject))], DefaultRunTime)]))
  }

  /** Without an object every builder raises AttributeError. */
  lemma UnknownVacuaErrors()
    ensures FadeInObject(None) == Err(AttributeError) && FadeInArrow(None) == Err(AttributeError)
    ensures ShowSymmetry(None) == Err(AttributeError) && RestoreSymmetry(None) == Err(AttributeError)
    ensures ShowNVectorRS(None) == Err(AttributeError) && ShowNVectorDB(None) == Err(AttributeError)
  {
  }

  /** `fade_in` and `fade_in_arrow` together bring on every part exactly
      once: the first everything before the arrow, the second the arrow. */
  lemma FadeInsPartitionParts(v: Vacua, rt1: real, rt2: real)
    ensures var ps := ObjectParts(Some(v)).value;
            Introduced(FadeInObject(Some(v), rt1).value) + Introduced(FadeInArrow(Some(v), rt2).value) == ps &&
            ArrowOf(v) !in Introduced(FadeInObject(Some(v), rt1).value)
  {
    var ps := ObjectParts(Some(v)).value;
    assert Slice(ps, None, Some(-1)) == ps[..|ps| - 1];
    assert ps[..|ps| - 1] + [ps[|ps| - 1]] == ps;
  }

  /** What `show_symmetry` touches in each arrangement: in RS the outside
      label goes and the outside box folds over, as documented; in DB
      (which the documentation excludes) the same indices pick the outside
      box to fade and the inside label to turn. */
  lemma SymmetryTargets(rt: real)
    ensures Removed(ShowSymmetry(Some(RS), rt).value) == [OutTextRS]
    ensures ShowSymmetry(Some(RS), rt).value.items[1].targets == [AdskpRS]
    ensures Removed(ShowSymmetry(Some(DB), rt).value) == [AdskpDB]
    ensures ShowSymmetry(Some(DB), rt).value.items[1].targets == [InTextDB]
  {
    FadeAndTurnInverse(OutTextRS, AdskpRS, rt / 2.0);
    FadeAndTurnInverse(AdskpDB, InTextDB, rt / 2.0);
  }

  /** The step that undoes a step: a fade-out is undone by fading the same
      parts in, a turn by the same turn about the opposite axis. */
  function Undo(a: Anim<AdsPart>): Anim<AdsPart>
  {
    match a
    case FadeOut(ts, rt) => FadeIn(ts, rt)
    case FadeIn(ts, rt) => FadeOut(ts, rt)
    case Rotate(ts, deg, about, axis, rt) => Rotate(ts, deg, about, Vec(-axis.x, -axis.y, -axis.z), rt)
    case _ => a
  }

  /** Undoing a fade or a turn twice gives it back. */
  lemma UndoUndo(a: Anim<AdsPart>)
    requires a.FadeIn? || a.FadeOut? || a.Rotate?
    ensures Undo(Undo(a)) == a
  {
  }

  /** `restore_symmetry` undoes `show_symmetry` step by step in reverse
      order, for either arrangement, whatever the run times. */
  lemma RestoreUndoesShow(v: Vacua, rt: real)
    ensures var show := ShowSymmetry(Some(v), rt).value.items;
            var restore := RestoreSymmetry(Some(v), rt).value.items;
            |show| == |restore| == 2 &&
            forall i :: 0 <= i < 2 ==> restore[i] == Undo(show[1 - i])
  {
  }

  /** So what `show_symmetry` fades out, `restore_symmetry` fades back in. */
  lemma RestoreFadesBackIn(v: Vacua, rt: real)
    ensures Introduced(RestoreSymmetry(Some(v), rt).value) == Removed(ShowSymmetry(Some(v), rt).value)
  {
    var ps := ObjectParts(Some(v)).value;
    var fade, turn := ps[|ps| - 3], ps[|ps| - 4];
    FadeAndTurnInverse(fade, turn, rt / 2.0);
  }

  /** A fade-out then a turn, undone in reverse order, fades back in what
      it faded out. */
  lemma FadeAndTurnInverse(fade: AdsPart, turn: AdsPart, rt: real)
    ensures var show := [FadeOut([fade], rt), Rotate([turn], 180.0, CenterOf(AdsBrane), Vec(0, -1, 0), rt)];
            var restore := [Rotate([turn], 180.0, CenterOf(AdsBrane), Vec(0, 1, 0), rt), FadeIn([fade], rt)];
            IntroducedAll(restore) == RemovedAll(show) == [fade]
  {
    var show := [FadeOut([fade], rt), Rotate([turn], 180.0, CenterOf(AdsBrane), Vec(0, -1, 0), rt)];
    var restore := [Rotate([turn], 180.0, CenterOf(AdsBrane), Vec(0, 1, 0), rt), FadeIn([fade], rt)];
    assert show[1..] == [show[1]] && restore[1..] == [restore[1]];
    assert [show[1]][1..] == [] && [restore[1]][1..] == [];
    assert RemovedAll([show[1]]) == [];
    assert IntroducedAll([restore[1]]) == [fade];
  }

  /** The heading, in degrees, a part has once one step is played from the
      heading `now`. `built` is its heading when the method built the steps:
      a `.animate` step runs towards a copy of the part made then, so its
      `rotate` counts from `built`, while `Rotate` turns the part from the
      heading it has when the step begins. */
  function StepHeading(a: Anim<AdsPart>, p: AdsPart, built: real, now: real): real
  {
    match a
    case Rotate(ts, deg, _, _, _) => if p in ts then now + deg else now
    case Animate(ts, ops, _, rate) => if p in ts && rate == Arrives then built + OpsTurn(ops) else now
    case _ => now
  }

  function OpsTurn(ops: seq<Op<AdsPart>>): real
  {
    if ops == [] then 0.0 else (if ops[0].RotateBy? then ops[0].degrees else 0.0) + OpsTurn(ops[1..])
  }

  /** The heading a part has once a list of steps, all built while it had
      the heading `built`, is played from the heading `now`. */
  function Heading(steps: seq<Anim<AdsPart>>, p: AdsPart, built: real, now: real): real
  {
    if steps == [] then now else Heading(steps[1..], p, built, StepHeading(steps[0], p, built, now))
  }

  /** Where the last step of a list moves a part, if it moves it. */
  function FinalPlace(steps: seq<Anim<AdsPart>>, p: AdsPart): Option<Place<AdsPart>>
  {
    if steps == [] then None
    else
      var last := steps[|steps| - 1];
      if last.Animate? && p in last.targets && |last.ops| > 0 && last.ops[|last.ops| - 1].MoveTo?
      then Some(last.ops[|last.ops| - 1].place)
      else None
  }

  /** The normal vector in RS takes three steps and ends at the group's
      right edge, reversed: the `Rotate` turns it half a turn, and the last
      step, whose `rotate(PI)` was applied to a copy of the arrow made before
      anything played, only moves it. */
  lemma NormalVectorRS(v: Vacua, h: real)
    ensures var rs := ShowNVectorRS(Some(v)).value.items;
            |rs| == 3 &&
            FinalPlace(rs, ArrowOf(v)) == Some(RightEdgeOf(WholeObject)) &&
            Heading(rs[..2], ArrowOf(v), h, h) == h + 180.0 &&
            Heading(rs, ArrowOf(v), h, h) == h + 180.0
  {
    var a := ArrowOf(v);
    var rs := ShowNVectorRS(Some(v)).value.items;
    var ops: seq<Op<AdsPart>> := [RotateBy(180.0), MoveTo(RightEdgeOf(WholeObject))];
    assert ops[1..][1..] == [];
    assert OpsTurn(ops) == 180.0;
    var moveTo: seq<Op<AdsPart>> := [MoveTo(CenterOf(AdsBrane))];
    assert moveTo[1..] == [];
    assert StepHeading(rs[0], a, h, h) == h;
    assert StepHeading(rs[1], a, h, h) == h + 180.0;
    assert StepHeading(rs[2], a, h, h + 180.0) == h + 180.0;
    var first2 := rs[..2];
    assert first2[1..] == [rs[1]] && [rs[1]][1..] == [];
    assert Heading(first2, a, h, h) == Heading([rs[1]], a, h, h);
    assert Heading([rs[1]], a, h, h) == h + 180.0;
    assert rs[1..] == [rs[1], rs[2]] && [rs[1], rs[2]][1..] == [rs[2]] && [rs[2]][1..] == [];
    assert Heading([rs[2]], a, h, h + 180.0) == h + 180.0;
    assert Heading(rs[1..], a, h, h) == Heading([rs[2]], a, h, h + 180.0);
  }

  /** The normal vector in DB takes one step: straight to the group's right
      edge, without turning. */
  lemma NormalVectorDB(v: Vacua, h: real)
    ensures var db := ShowNVectorDB(Some(v)).value.items;
            |db| == 1 &&
            FinalPlace(db, ArrowOf(v)) == Some(RightEdgeOf(WholeObject)) &&
            Heading(db, ArrowOf(v), h, h) == h
  {
    var db := ShowNVectorDB(Some(v)).value.items;
    var right: seq<Op<AdsPart>> := [MoveTo(RightEdgeOf(WholeObject))];
    assert right[1..] == [];
    assert db[1..] == [];
  }

  /**
   * An AdS_Jc picture. The part list is fixed at construction; the box fill
   * opacities are kept per box. The brane and vacuum styles the source
   * inherits are held as the two style objects.
   */
  class AdSJc {
    const vacuaType: string
    const vacua: Option<Vacua>
    const arrowColor: Color
    const brane: BraneGeneral
    const vacuum: VacuumGeneral
    const objectParts: Option<seq<AdsPart>>
    const braneStrokeW: real
    const fillOpacity: map<AdsPart, real>

    constructor (brane: BraneGeneral, vacuum: VacuumGeneral, vacuaType: string := "DB",
                 arrowColor: Color := White)
      ensures this.vacuaType == vacuaType && vacua == VacuaOf(vacuaType) && this.arrowColor == arrowColor
      ensures this.brane == brane && this.vacuum == vacuum
      ensures objectParts == ObjectParts(vacua)
      ensures braneStrokeW == brane.braneStrokeW + 1.0
      ensures fillOpacity.Keys == {AdskmRS, AdskpRS, AdskmDB, AdskpDB}
      ensures fillOpacity[AdskmRS] == fillOpacity[AdskpRS] == vacuum.vacuumFillOpa
      ensures fillOpacity[AdskpDB] == vacuum.vacuumFillOpa
      ensures fillOpacity[AdskmDB] == vacuum.vacuumFillOpa + 0.3
    {
      this.vacuaType := vacuaType;
      this.vacua := VacuaOf(vacuaType);
      this.arrowColor := arrowColor;
      this.brane := brane;
      this.vacuum := vacuum;
      this.braneStrokeW := brane.braneStrokeW + 1.0;
      var outside := vacuum.vacuumFillOpa;
      this.fillOpacity := map[AdskpRS := outside, AdskmRS := outside,
                              AdskpDB := outside, AdskmDB := outside + 0.3];
      this.objectParts := ObjectParts(VacuaOf(vacuaType));
    }
  }

  /** In any junction built, the inside box of RS is as opaque as the
      outside one, and the inside box of DB is 0.3 more opaque than its
      outside box, whatever the vacuum style. */
  method InsideBoxOpacity(brane: BraneGeneral, vacuum: VacuumGeneral, vacuaType: string, arrowColor: Color)
    returns (ads: AdSJc)
    ensures ads.vacuaType == vacuaType && ads.vacuum == vacuum
    ensures ads.fillOpacity.Keys == {AdskmRS, AdskpRS, AdskmDB, AdskpDB}
    ensures ads.fillOpacity[AdskmRS] == ads.fillOpacity[AdskpRS]
    ensures ads.fillOpacity[AdskmDB] - ads.fillOpacity[AdskpDB] == 0.3
    ensures ads.fillOpacity[AdskmDB] > ads.fillOpacity[AdskpDB]
  {
    ads := new AdSJc(brane, vacuum, vacuaType, arrowColor);
  }
}
