/**
 * The plots: the `Plot_General` style base and the four plots built on it.
 * `Plot_Induced_Potential` moves a marker along the four-dimensional
 * potential of the nucleated brane, `Plot_Instanton` moves the field from
 * the false to the true vacuum, `Plot_Lambda_Tension` draws the
 * cosmological constant against the brane tension, and `Plot_Quantum`
 * writes the two quantum-cosmology wave functions. Each plot's curves are
 * kept where their formulas are polynomial or rational; the markers are
 * value trackers driven to fixed targets.
 */
module Plots {
  import opened Python
  import opened Anim
  import opened Style

  /** `Plot_General`: the plot style, stored as given; `cornerRad` holds
      the derived per-corner radii. */
  class PlotGeneral {
    const funcMainColor: Color
    const func2Color: Color
    const func3Color: Color
    const textColor: Color
    const axisOpacity: real
    const axisStroke: real
    const decoratorPresence: string
    const decoratorColor: Color
    const decoratorStrokeW: real
    const cornerRad: seq<real>
    const fillOpa: real
    const strokeW: real
    const strokeOpa: real
    const tightness: real

    constructor (funcMainColor: Color := Green, func2Color: Color := Red, func3Color: Color := Blue,
                 textColor: Color := White, axisOpacity: real := 0.5, axisStroke: real := 1.0,
                 decoratorPresence: string := "box", decoratorColor: Color := White,
                 decoratorStrokeW: real := 1.0, cornerRad: real := 0.0,
                 cornerRadDirection: seq<real> := NoRounding, fillOpa: real := 0.1,
                 strokeW: real := 1.0, strokeOpa: real := 1.0, tightness: real := 0.3)
      ensures this.funcMainColor == funcMainColor && this.func2Color == func2Color
      ensures this.func3Color == func3Color && this.textColor == textColor
      ensures this.axisOpacity == axisOpacity && this.axisStroke == axisStroke
      ensures this.decoratorPresence == decoratorPresence && this.decoratorColor == decoratorColor
      ensures this.decoratorStrokeW == decoratorStrokeW
      ensures this.cornerRad == CornerRadii(cornerRad, cornerRadDirection)
      ensures this.fillOpa == fillOpa && this.strokeW == strokeW
      ensures this.strokeOpa == strokeOpa && this.tightness == tightness
    {
      this.funcMainColor := funcMainColor;
      this.func2Color := func2Color;
      this.func3Color := func3Color;
      this.textColor := textColor;
      this.axisOpacity := axisOpacity;
      this.axisStroke := axisStroke;
      this.decoratorPresence := decoratorPresence;
      this.decoratorColor := decoratorColor;
      this.decoratorStrokeW := decoratorStrokeW;
      this.cornerRad := CornerRadii(cornerRad, cornerRadDirection);
      this.fillOpa := fillOpa;
      this.strokeW := strokeW;
      this.strokeOpa := strokeOpa;
      this.tightness := tightness;
    }

    /** Only the exact string "box" draws the surrounding box; "no" and
        every other value leave it out. */
    predicate HasBox()
    {
      decoratorPresence == "box"
    }
  }

  // ---------------------------------------------------------------------
  // Plot_Induced_Potential

  datatype InducedPart = Axes4D | AxisLabels4D | Box4D | PotOg | PotJcChange | PotWithCc | Position | PosTrack

  /** The axis `x_range` and the domain of the three curves. */
  const InducedXMin: real := 1.2
  const InducedXMax: real := 6.0

  /** The children: with the box, the axes, labels and box are grouped as
      element 0; without it, the axes alone are element 0 and the labels
      element 1. The curves follow in the order original, changed junction
      condition, with cosmological constant, and the marker is last. */
  function InducedChildren(hasBox: bool): seq<Mob<InducedPart>>
  {
    var curves := [Part(PotOg), Part(PotJcChange), Part(PotWithCc), Part(Position)];
    if hasBox then [Group([Part(Axes4D), Part(AxisLabels4D), Part(Box4D)])] + curves
    else [Part(Axes4D), Part(AxisLabels4D)] + curves
  }

  lemma InducedChildrenOrder(hasBox: bool)
    ensures var cs := InducedChildren(hasBox);
            cs[|cs| - 1] == Part(Position) &&
            cs[|cs| - 4..|cs| - 1] == [Part(PotOg), Part(PotJcChange), Part(PotWithCc)]
    ensures hasBox <==> InducedChildren(hasBox)[0] == Group([Part(Axes4D), Part(AxisLabels4D), Part(Box4D)])
    ensures !hasBox <==> InducedChildren(hasBox)[0] == Part(Axes4D) && InducedChildren(hasBox)[1] == Part(AxisLabels4D)
    ensures |InducedChildren(hasBox)| == if hasBox then 5 else 6
  {
  }

  function ShowPotential(rt: real := 2.0): Anim<InducedPart> { Write([PotOg], rt) }

  function ShowJc(rt: real := 2.0): Anim<InducedPart> { Write([PotJcChange], rt) }

  /** `nucleate_brane`: the marker fades in, then the tracker goes to 1.7. */
  function NucleateBrane(rt: real := 0.5): Anim<InducedPart>
  {
    Succession([FadeIn([Position], DefaultRunTime), Animate([PosTrack], [SetValue(1.7)], rt)])
  }

  /** `accelerate`: the tracker goes to the potential's minimum at 2.4. */
  function Accelerate(rt: real := 0.5): Anim<InducedPart>
  {
    Animate([PosTrack], [SetValue(2.4)], rt)
  }

  /** `bounce`: out to 3.9 and back to 1.72, half of `rt` each. */
  function Bounce(rt: real := 4.0): Anim<InducedPart>
  {
    Succession([Animate([PosTrack], [SetValue(3.9)], rt / 2.0), Animate([PosTrack], [SetValue(1.72)], rt / 2.0)])
  }

  /** `add_cc_and_expand`: write the curve with the cosmological constant
      in a third of `rt`, wait, then send the tracker to 6 in the other two
      thirds. */
  function AddCcAndExpand(rt: real := 6.0): Anim<InducedPart>
  {
    Succession([Write([PotWithCc], rt / 3.0), Wait(DefaultRunTime), Animate([PosTrack], [SetValue(6.0)], 2.0 * rt / 3.0)])
  }

  /** The values each step drives the position tracker to, whatever the
      run times; every step ends at its target, so these are also the
      marker's stops. */
  lemma NucleateTargets(rt: real)
    ensures TrackerTargets(NucleateBrane(rt), PosTrack) == [1.7]
    ensures TrackerStops(NucleateBrane(rt), PosTrack) == [1.7]
    ensures Introduced(NucleateBrane(rt)) == [Position]
  {
    var ops: seq<Op<InducedPart>> := [SetValue(1.7)];
    assert ValuesOf(ops) == [1.7] by { assert ops[1..] == []; }
    Steps2(FadeIn([Position], DefaultRunTime), Animate([PosTrack], ops, rt), PosTrack);
  }

  lemma BounceTargets(rt: real)
    ensures TrackerTargets(Bounce(rt), PosTrack) == [3.9, 1.72]
    ensures TrackerStops(Bounce(rt), PosTrack) == [3.9, 1.72]
    ensures Duration(Bounce(rt)) == rt
  {
    var up: seq<Op<InducedPart>> := [SetValue(3.9)];
    var down: seq<Op<InducedPart>> := [SetValue(1.72)];
    assert ValuesOf(up) == [3.9] by { assert up[1..] == []; }
    assert ValuesOf(down) == [1.72] by { assert down[1..] == []; }
    Steps2(Animate([PosTrack], up, rt / 2.0), Animate([PosTrack], down, rt / 2.0), PosTrack);
  }

  lemma AddCcTargets(rt: real)
    ensures TrackerTargets(AddCcAndExpand(rt), PosTrack) == [6.0]
    ensures TrackerStops(AddCcAndExpand(rt), PosTrack) == [6.0]
    ensures Introduced(AddCcAndExpand(rt)) == [PotWithCc]
    ensures Duration(AddCcAndExpand(rt)) == rt + DefaultRunTime
  {
    var ops: seq<Op<InducedPart>> := [SetValue(6.0)];
    assert ValuesOf(ops) == [6.0] by { assert ops[1..] == []; }
    Steps3(Write([PotWithCc], rt / 3.0), Wait(DefaultRunTime), Animate([PosTrack], ops, 2.0 * rt / 3.0), PosTrack);
  }

  lemma AccelerateTargets(rt: real)
    ensures TrackerTargets(Accelerate(rt), PosTrack) == [2.4]
    ensures TrackerStops(Accelerate(rt), PosTrack) == [2.4]
  {
    var ops: seq<Op<InducedPart>> := [SetValue(2.4)];
    assert ValuesOf(ops) == [2.4] by { assert ops[1..] == []; }
  }

  /** Along the documented scene (show the potential, show the changed
      junction condition, nucleate, accelerate, bounce, add the constant and
      expand), the tracker starts at 1.2 and stops at 1.7, 2.4, 3.9, 1.72
      and 6, never leaving the axis and curve domain [1.2, 6]; it ends at
      the right end of the axis. */
  lemma InducedStory(rt: real)
    ensures var v0 := Settle(ShowJc(rt), PosTrack, Settle(ShowPotential(rt), PosTrack, InducedXMin));
            var v1 := Settle(NucleateBrane(rt), PosTrack, v0);
            var v2 := Settle(Accelerate(rt), PosTrack, v1);
            var v3 := Settle(Bounce(rt), PosTrack, v2);
            var v4 := Settle(AddCcAndExpand(rt), PosTrack, v3);
            v0 == 1.2 && v1 == 1.7 && v2 == 2.4 && v3 == 1.72 && v4 == InducedXMax
    ensures var stops := TrackerTargets(NucleateBrane(rt), PosTrack) + TrackerTargets(Accelerate(rt), PosTrack)
                         + TrackerTargets(Bounce(rt), PosTrack) + TrackerTargets(AddCcAndExpand(rt), PosTrack);
            forall v :: v in stops ==> InducedXMin <= v <= InducedXMax
  {
    NucleateTargets(rt);
    AccelerateTargets(rt);
    BounceTargets(rt);
    AddCcTargets(rt);
    SettleIsLastTarget(ShowPotential(rt), PosTrack, InducedXMin);
    SettleIsLastTarget(ShowJc(rt), PosTrack, InducedXMin);
    SettleIsLastTarget(NucleateBrane(rt), PosTrack, 1.2);
    SettleIsLastTarget(Accelerate(rt), PosTrack, 1.7);
    SettleIsLastTarget(Bounce(rt), PosTrack, 2.4);
    SettleIsLastTarget(AddCcAndExpand(rt), PosTrack, 1.72);
  }

  /** `Plot_Induced_Potential` once built: its children and its position
      tracker, which starts at the left end of the axis. */
  class PlotInducedPotential {
    const style: PlotGeneral
    const children: seq<Mob<InducedPart>>
    const posTrack: ValueTracker<InducedPart>

    constructor (style: PlotGeneral)
      ensures this.style == style && children == InducedChildren(style.HasBox())
      ensures fresh(posTrack) && posTrack.tag == PosTrack && posTrack.value == InducedXMin
    {
      this.style := style;
      this.children := InducedChildren(style.HasBox());
      this.posTrack := new ValueTracker(PosTrack, 1.2);
    }
  }

  // ---------------------------------------------------------------------
  // Plot_Instanton

  datatype InstantonPart = AxIns | LabAxIns | PotIns | MinimaLabels | BoxIns | FieldPosition | TrackerIns

  /** Where the V₊ and V₋ labels sit, and where `decay` sends the field. */
  const FalseVacuumX: real := -0.845649
  const TrueVacuumX: real := 1.15
  const DecayTarget: real := 0.7

  /** The double well `-2x² + (x - 0.1)⁴ + 0.64`. */
  function InstantonPotential(x: real): real
  {
    var d := x - 0.1;
    -2.0 * x * x + d * d * d * d + 0.64
  }

  /** Element 0 is `initial_show` (axes, labels, curve, minima labels, and
      the box only when there is one); the field marker is element 1. */
  function InstantonChildren(hasBox: bool): seq<Mob<InstantonPart>>
  {
    var shown := [Part(AxIns), Part(LabAxIns), Part(PotIns), Part(MinimaLabels)];
    [Group(shown + (if hasBox then [Part(BoxIns)] else [])), Part(FieldPosition)]
  }

  function FadeInFieldPosition(rt: real := 0.5): Anim<InstantonPart> { FadeIn([FieldPosition], rt) }

  function Decay(rt: real := 0.5): Anim<InstantonPart>
  {
    Animate([TrackerIns], [SetValue(DecayTarget)], rt)
  }

  /** The marker is the last child, and fading it in shows nothing else;
      the box is in `initial_show` exactly when the style asks for one. */
  lemma InstantonLayout(hasBox: bool, rt: real)
    ensures InstantonChildren(hasBox)[|InstantonChildren(hasBox)| - 1] == Part(FieldPosition)
    ensures Introduced(FadeInFieldPosition(rt)) == [FieldPosition]
    ensures hasBox <==> Part(BoxIns) in InstantonChildren(hasBox)[0].members
  {
  }

  /** The field starts at the V₊ label and `decay` sends it past the
      barrier at 0 to 0.7, from any start: both positions are inside the
      curve's domain [-1.3, 1.6] and the axis range [-2.1, 2.1]. V₊ is the
      higher of the two wells, the barrier top is higher still, and the
      field ends lower than it started. It does not reach the true vacuum,
      though: 0.7 lies short of the V₋ label at 1.15, on the slope above
      it. */
  lemma InstantonDecays(start: real, rt: real)
    ensures Settle(Decay(rt), TrackerIns, start) == DecayTarget
    ensures -1.3 <= FalseVacuumX < 0.0 < DecayTarget <= 1.6 && -2.1 <= FalseVacuumX && DecayTarget <= 2.1
    ensures InstantonPotential(TrueVacuumX) < InstantonPotential(FalseVacuumX) < InstantonPotential(0.0)
    ensures InstantonPotential(DecayTarget) < InstantonPotential(FalseVacuumX)
    ensures DecayTarget < TrueVacuumX && InstantonPotential(TrueVacuumX) < InstantonPotential(DecayTarget)
  {
    SettleIsLastTarget(Decay(rt), TrackerIns, start);
    var ops: seq<Op<InstantonPart>> := [SetValue(DecayTarget)];
    assert ValuesOf(ops) == [DecayTarget];
  }

  class PlotInstanton {
    const style: PlotGeneral
    const children: seq<Mob<InstantonPart>>
    const trackerIns: ValueTracker<InstantonPart>

    constructor (style: PlotGeneral)
      ensures this.style == style && children == InstantonChildren(style.HasBox())
      ensures fresh(trackerIns) && trackerIns.tag == TrackerIns && trackerIns.value == FalseVacuumX
    {
      this.style := style;
      this.children := InstantonChildren(style.HasBox());
      this.trackerIns := new ValueTracker(TrackerIns, -0.845649);
    }
  }

  // ---------------------------------------------------------------------
  // Plot_Lambda_Tension

  datatype TensionPart = AxTension | LabTension | BoxTension | Segment1 | Segment2 | Segment3 | Dot1 | Dot2

  /** The AdS scales inside and outside the brane. */
  const KPlus: real := 3.0
  const KMinus: real := 4.0

  /** Λ₄ against the tension σ: `σ²/12 - 3/2·(k₊² + k₋²) + 27/4·((k₋² - k₊²)/σ)²`. */
  function Tension(x: real): real
    requires x != 0.0
  {
    var q := (KMinus * KMinus - KPlus * KPlus) / x;
    x * x / 12.0 - 3.0 / 2.0 * (KPlus * KPlus + KMinus * KMinus) + 27.0 / 4.0 * (q * q)
  }

  /** The x ranges of the three curve pieces, the axis range, and where the
      two dots sit. */
  const SegmentRanges: seq<(real, real)> := [(2.4, 3.0), (3.0, 21.0), (21.0, 25.0)]
  const TensionAxis: (real, real) := (0.0, 25.0)
  const DotXs: seq<real> := [3.0, 21.0]

  /** `to_draw`, the same in both branches. */
  const TensionToDraw: seq<TensionPart> := [Segment1, Segment2, Segment3, Dot1, Dot2]

  /** Element 0 is `to_show` (headed by the box only when there is one),
      element 1 is `to_draw`. */
  function TensionChildren(hasBox: bool): seq<Mob<TensionPart>>
  {
    var show := (if hasBox then [Part(BoxTension)] else []) + [Part(AxTension), Part(LabTension)];
    [Group(show), Group(seq(|TensionToDraw|, i requires 0 <= i < |TensionToDraw| => Part(TensionToDraw[i])))]
  }

  /** `create_function`: each piece of `to_draw` written once, in order. */
  function CreateFunction(rt: real := 1.0): Anim<TensionPart>
  {
    WriteEach(TensionToDraw, rt)
  }

  /** The three pieces tile [2.4, 25] without gap or overlap, inside the
      axis range, and the dots sit exactly on the two joins. */
  lemma SegmentsTile()
    ensures forall i :: 0 <= i < |SegmentRanges| ==> TensionAxis.0 <= SegmentRanges[i].0 < SegmentRanges[i].1 <= TensionAxis.1
    ensures forall i :: 0 <= i < |SegmentRanges| - 1 ==> SegmentRanges[i].1 == SegmentRanges[i + 1].0
    ensures |DotXs| == |SegmentRanges| - 1
    ensures forall i :: 0 <= i < |DotXs| ==> DotXs[i] == SegmentRanges[i].1
  {
  }

  /** The sign of a product from the signs of its factors. */
  lemma ProductSign(u: real, w: real)
    ensures u > 0.0 && w > 0.0 ==> u * w > 0.0
    ensures u < 0.0 && w < 0.0 ==> u * w > 0.0
    ensures u > 0.0 && w < 0.0 ==> u * w < 0.0
    ensures u < 0.0 && w > 0.0 ==> u * w < 0.0
  {
  }

  /** A value has the sign of its product with a positive factor. */
  lemma QuotientSign(c: real, t: real, p: real)
    requires c > 0.0 && c * t == p
    ensures p > 0.0 ==> t > 0.0
    ensures p < 0.0 ==> t < 0.0
    ensures p == 0.0 ==> t == 0.0
  {
    ProductSign(c, t);
    if t == 0.0 {
      assert c * t == 0.0;
    }
  }

  /** Λ₄ times 12σ² factors as (σ - 3)(σ - 21)(σ + 3)(σ + 21). */
  lemma TensionFactors(x: real)
    requires x > 0.0
    ensures 12.0 * (x * x) * Tension(x) == ((x - 3.0) * (x - 21.0)) * ((x + 3.0) * (x + 21.0))
  {
    var q := 7.0 / x;
    assert q * x == 7.0;
    assert (q * q) * (x * x) == 49.0 by {
      assert (q * q) * (x * x) == (q * x) * (q * x);
    }
    calc {
      12.0 * (x * x) * Tension(x);
      12.0 * (x * x) * (x * x / 12.0 - 37.5 + 6.75 * (q * q));
      (x * x) * (x * x) - 450.0 * (x * x) + 81.0 * ((q * q) * (x * x));
      (x * x) * (x * x) - 450.0 * (x * x) + 3969.0;
      ((x - 3.0) * (x - 21.0)) * ((x + 3.0) * (x + 21.0));
    }
  }

  /** The dots mark the zeros of Λ₄: it vanishes at σ = 3 and σ = 21, is
      negative strictly between them, where the dashed middle piece is
      drawn, and positive on the two solid pieces outside them. */
  lemma TensionSigns(x: real)
    requires x > 0.0
    ensures x == 3.0 || x == 21.0 ==> Tension(x) == 0.0
    ensures 3.0 < x < 21.0 ==> Tension(x) < 0.0
    ensures x < 3.0 || 21.0 < x ==> Tension(x) > 0.0
  {
    var l := (x - 3.0) * (x - 21.0);
    var r := (x + 3.0) * (x + 21.0);
    TensionFactors(x);
    ProductSign(x, x);
    ProductSign(x + 3.0, x + 21.0);
    assert r > 0.0;
    ProductSign(x - 3.0, x - 21.0);
    ProductSign(l, r);
    if l == 0.0 {
      assert l * r == 0.0;
    }
    QuotientSign(12.0 * (x * x), Tension(x), l * r);
  }

  /** `create_function` writes every piece of `to_draw` once, in order, and
      lasts five run times; the box heads element 0 exactly when the style
      asks for one. */
  lemma CreateFunctionWritesAll(rt: real, hasBox: bool)
    ensures Introduced(CreateFunction(rt)) == TensionToDraw
    ensures Duration(CreateFunction(rt)) == 5.0 * rt
    ensures hasBox <==> TensionChildren(hasBox)[0].members[0] == Part(BoxTension)
  {
    WriteEachIntroducesInOrder(TensionToDraw, rt);
  }

  class PlotLambdaTension {
    const style: PlotGeneral
    const children: seq<Mob<TensionPart>>

    constructor (style: PlotGeneral)
      ensures this.style == style && children == TensionChildren(style.HasBox())
    {
      this.style := style;
      this.children := TensionChildren(style.HasBox());
    }
  }

  // ---------------------------------------------------------------------
  // Plot_Quantum

  datatype QuantumPart = AxQ | PotQ | SplitRegions | Regions | LabQ | BoxQ | HHawking | HHLabel | Vilenkin | VilenkinLabel

  /** The potential group `q_pot`: axes, curve, region divider, region
      names and axis labels. */
  const QPot: Mob<QuantumPart> := Group([Part(AxQ), Part(PotQ), Part(SplitRegions), Part(Regions), Part(LabQ)])

  /** `to_draw`, the same in both branches: each wave function followed by
      its legend. */
  const QuantumToDraw: seq<QuantumPart> := [HHawking, HHLabel, Vilenkin, VilenkinLabel]

  /** Element 0 is `to_show`: `q_pot` and the box, or `q_pot` itself. */
  function QuantumChildren(hasBox: bool): seq<Mob<QuantumPart>>
  {
    [if hasBox then Group([QPot, Part(BoxQ)]) else QPot,
     Group(seq(|QuantumToDraw|, i requires 0 <= i < |QuantumToDraw| => Part(QuantumToDraw[i])))]
  }

  function CreateWaveFunctions(rt: real := 2.0): Anim<QuantumPart>
  {
    WriteEach(QuantumToDraw, rt)
  }

  /** `create_wave_functions` writes the two wave functions and their
      legends once each, in order, in four run times. */
  lemma WaveFunctionsWritten(rt: real, hasBox: bool)
    ensures Introduced(CreateWaveFunctions(rt)) == QuantumToDraw
    ensures Duration(CreateWaveFunctions(rt)) == 4.0 * rt
    ensures QuantumChildren(hasBox)[1].members == [Part(HHawking), Part(HHLabel), Part(Vilenkin), Part(VilenkinLabel)]
    ensures hasBox <==> QuantumChildren(hasBox)[0] != QPot
  {
    WriteEachIntroducesInOrder(QuantumToDraw, rt);
  }

  /** The region divider's x, and the potential `a² - a⁴/4²`. */
  const RegionDivider: real := 4.0

  function QuantumPotential(a: real): real
  {
    a * a - a * a * a * a / 16.0
  }

  /** The divider sits at the potential's non-zero root: the barrier is
      positive over region I, between 0 and 4, and negative over region
      II beyond it, where the curve's range [0, 4.07] ends. */
  lemma RegionsSplitAtRoot(a: real)
    ensures QuantumPotential(0.0) == 0.0 && QuantumPotential(RegionDivider) == 0.0
    ensures 0.0 < a < RegionDivider ==> QuantumPotential(a) > 0.0
    ensures RegionDivider < a ==> QuantumPotential(a) < 0.0
  {
    QuantumFactors(a);
    var l := a * (4.0 - a);
    var r := a * (4.0 + a);
    if 0.0 < a < 4.0 {
      ProductSign(a, 4.0 - a);
      ProductSign(a, 4.0 + a);
      assert l > 0.0 && r > 0.0;
      ProductSign(l, r);
      assert l * r > 0.0;
    } else if 4.0 < a {
      ProductSign(a, 4.0 - a);
      ProductSign(a, 4.0 + a);
      assert l < 0.0 && r > 0.0;
      ProductSign(l, r);
      assert l * r < 0.0;
      assert QuantumPotential(a) == (l * r) / 16.0;
      NegativeOverSixteen(l * r);
    }
  }

  lemma NegativeOverSixteen(p: real)
    requires p < 0.0
    ensures p / 16.0 < 0.0
  {
  }

  /** `a² - a⁴/16` factors as `a(4 - a) · a(4 + a) / 16`. */
  lemma QuantumFactors(a: real)
    ensures QuantumPotential(a) == (a * (4.0 - a)) * (a * (4.0 + a)) / 16.0
  {
  }

  class PlotQuantum {
    const style: PlotGeneral
    const children: seq<Mob<QuantumPart>>

    constructor (style: PlotGeneral)
      ensures this.style == style && children == QuantumChildren(style.HasBox())
    {
      this.style := style;
      this.children := QuantumChildren(style.HasBox());
    }
  }
}
