/**
 * `Black_Hole`: a black-hole disc with a brane circle behind it that can
 * nucleate and expand, labelled according to the `bh_type` string.
 */
module BlackHole {
  import opened Python
  import opened Anim
  import opened Style

  /** The parts a black hole is built from. */
  datatype BhPart = BhBrane | Hole | Mu | Theta | ThetaPath | QT

  /** The three `bh_type` values the constructor tests for. */
  datatype BhKind = Spinning | Fragmentation | NoLabels

  /** The kind a `bh_type` string selects; None for any other string. */
  function BhKindOf(bhType: string): Option<BhKind>
  {
    if bhType == "spinning" then Some(Spinning)
    else if bhType == "fragmentation" then Some(Fragmentation)
    else if bhType == "none" then Some(NoLabels)
    else None
  }

  /** The parts the constructor adds, in order; nothing for any other type. */
  function Children(k: Option<BhKind>): seq<BhPart>
  {
    match k
    case Some(Spinning) => [BhBrane, Hole, Mu, Theta, ThetaPath]
    case Some(Fragmentation) => [BhBrane, Hole, QT]
    case Some(NoLabels) => [BhBrane, Hole]
    case None => []
  }

  /** The brane is the first part of every recognised type, never the last
      one as the class notes say; an unrecognised type adds no part at all. */
  lemma ChildrenLayout(k: Option<BhKind>)
    ensures k.Some? ==> var cs := Children(k); 2 <= |cs| && cs[0] == BhBrane && cs[|cs| - 1] != BhBrane
    ensures k.None? <==> Children(k) == []
    ensures Theta in Children(k) <==> k == Some(Spinning)
  {
  }

  /** The default `bh_size`: the brane radius of a default brane style. */
  const DefaultBhSize: real := 1.0

  /** Evaluating the default once: it is the radius of a freshly made
      default brane style, whatever style the black hole itself is given
      later. */
  method DefaultBhSizeFromBrane() returns (size: real)
    ensures size == DefaultBhSize
  {
    var b := new BraneGeneral();
    size := b.braneRadius;
  }

  /** `nucleate`: the brane alone scales by `scaling`. */
  function Nucleate(rt: real := 0.5, scaling: real := 1.1): Anim<BhPart>
  {
    AnimationGroup([Animate([BhBrane], [ScaleBy(scaling)], rt)])
  }

  /** `expand`: the brane scales by `scaling`; for a spinning hole, in the
      same group, theta travels along its path. */
  function Expand(k: Option<BhKind>, rt: real := 3.0, scaling: real := 2.5): Anim<BhPart>
  {
    if k == Some(Spinning) then
      AnimationGroup([Animate([BhBrane], [ScaleBy(scaling)], rt), MoveAlongPath(Theta, ThetaPath, rt)])
    else
      AnimationGroup([Animate([BhBrane], [ScaleBy(scaling)], rt)])
  }

  /** `nucleate` scales the brane and nothing else, and moves nothing. */
  lemma NucleateScalesBrane(rt: real, scaling: real)
    ensures Scalings(Nucleate(rt, scaling)) == [(BhBrane, scaling)]
    ensures PathMoves(Nucleate(rt, scaling)) == []
    ensures Introduced(Nucleate(rt, scaling)) == []
  {
    var a := Animate([BhBrane], [ScaleBy(scaling)], rt);
    ScaleEach([BhBrane], scaling);
    Steps1(a, BhBrane);
  }

  /** `expand` scales the brane for every type, recognised or not, and
      moves theta along its path exactly when the hole is spinning. */
  lemma ExpandTargets(k: Option<BhKind>, rt: real, scaling: real)
    ensures Scalings(Expand(k, rt, scaling)) == [(BhBrane, scaling)]
    ensures PathMoves(Expand(k, rt, scaling)) == if k == Some(Spinning) then [(Theta, ThetaPath)] else []
    ensures 0.0 <= rt ==> Duration(Expand(k, rt, scaling)) == rt
  {
    if k == Some(Spinning) {
      ExpandSpinning(rt, scaling);
    } else {
      ExpandStill(k, rt, scaling);
    }
  }

  lemma ExpandSpinning(rt: real, scaling: real)
    ensures Scalings(Expand(Some(Spinning), rt, scaling)) == [(BhBrane, scaling)]
    ensures PathMoves(Expand(Some(Spinning), rt, scaling)) == [(Theta, ThetaPath)]
    ensures 0.0 <= rt ==> Duration(Expand(Some(Spinning), rt, scaling)) == rt
  {
    var a := Animate([BhBrane], [ScaleBy(scaling)], rt);
    var m := MoveAlongPath(Theta, ThetaPath, rt);
    ScaleEach([BhBrane], scaling);
    Steps2(a, m, BhBrane);
    assert [a, m][1..] == [m];
    assert [m][1..] == [];
    assert DurationMax([m]) == if rt < 0.0 then 0.0 else rt;
  }

  lemma ExpandStill(k: Option<BhKind>, rt: real, scaling: real)
    requires k != Some(Spinning)
    ensures Scalings(Expand(k, rt, scaling)) == [(BhBrane, scaling)]
    ensures PathMoves(Expand(k, rt, scaling)) == []
    ensures 0.0 <= rt ==> Duration(Expand(k, rt, scaling)) == rt
  {
    var a := Animate([BhBrane], [ScaleBy(scaling)], rt);
    ScaleEach([BhBrane], scaling);
    Steps1(a, BhBrane);
    assert [a][1..] == [];
    assert DurationMax([a]) == if rt < 0.0 then 0.0 else rt;
  }


  /** The theta path's radius, `bh_size - bh_size·3/10`. */
  function ThetaPathRadius(bhSize: real): (r: real)
    ensures r == 0.7 * bhSize
  {
    bhSize - bhSize * 3.0 / 10.0
  }

  /** For a positive size the path lies strictly inside the hole's disc. */
  lemma ThetaPathInsideHole(bhSize: real)
    requires bhSize > 0.0
    ensures 0.0 < ThetaPathRadius(bhSize) < bhSize
  {
  }

  /**
   * A black hole on screen: its parts, the disc radii, and the label sizes
   * and drawing order. The brane style the source inherits is held as a
   * style object.
   */
  class BlackHole {
    const bhType: string
    const kind: Option<BhKind>
    const brane: BraneGeneral
    const bhSize: real
    const bhColor: Color
    const bhFillOpa: real
    const children: seq<BhPart>
    const holeStrokeW: real
    const thetaPathRadius: real
    const labelFontSize: real
    const zIndex: map<BhPart, int>

    constructor (brane: BraneGeneral, bhSize: real := DefaultBhSize, bhColor: Color := Black,
                 bhFillOpa: real := 0.8, bhType: string := "none")
      ensures this.bhType == bhType && kind == BhKindOf(bhType)
      ensures this.brane == brane && this.bhSize == bhSize
      ensures this.bhColor == bhColor && this.bhFillOpa == bhFillOpa
      ensures children == Children(kind)
      ensures holeStrokeW == brane.braneStrokeW
      ensures thetaPathRadius == 0.7 * bhSize
      ensures labelFontSize == 35.0 * bhSize
      ensures zIndex == map[BhBrane := 0, ThetaPath := 0, Hole := 3, Mu := 7, Theta := 7, QT := 8]
    {
      this.bhType := bhType;
      this.kind := BhKindOf(bhType);
      this.brane := brane;
      this.bhSize := bhSize;
      this.bhColor := bhColor;
      this.bhFillOpa := bhFillOpa;
      this.holeStrokeW := brane.braneStrokeW;
      this.thetaPathRadius := ThetaPathRadius(bhSize);
      this.labelFontSize := 35.0 * bhSize;
      this.zIndex := map[BhBrane := 0, ThetaPath := 0, Hole := 3, Mu := 7, Theta := 7, QT := 8];
      this.children := Children(BhKindOf(bhType));
    }
  }

  /** The drawing order of any black hole built: the disc covers the
      brane, and every label is drawn over the disc. */
  method LabelsAboveHole(brane: BraneGeneral, bhSize: real, bhColor: Color, bhFillOpa: real, bhType: string)
    returns (bh: BlackHole)
    ensures bh.bhType == bhType && bh.bhSize == bhSize
    ensures bh.zIndex.Keys == {BhBrane, ThetaPath, Hole, Mu, Theta, QT}
    ensures bh.zIndex[BhBrane] < bh.zIndex[Hole]
    ensures forall p :: p in {Mu, Theta, QT} ==> bh.zIndex[Hole] < bh.zIndex[p]
  {
    bh := new BlackHole(brane, bhSize, bhColor, bhFillOpa, bhType);
  }
}
