/**
 * `Bubble`: a vacuum box with a brane bubble in it, in one of seven
 * configurations chosen by the `bubble_type` string. The type fixes an
 * ordered list of parts; the animation builders pick parts by Python index
 * and slice, and drive the `vacuum_tracker` that sizes the energy bar.
 */
module Bubble {
  import opened Python
  import opened Anim
  import opened Style

  /** The parts a bubble is built from, as tags. */
  datatype BubblePart =
    | Background | OutText | OutInstaText | Brane | InText | InInstaText
    | RadiusInfo | Mass | BraneWaves | Waves | BraneWithAnchor | Strings
    | FieldTop | FieldGlow | FakeBrane | EnergyCostBubble
    | BarOutside | EnergyGain | VacuumTracker

  /** The seven `bubble_type` values the constructor and builders test for. */
  datatype Kind = Empty | Instanton | Radiation | GW | WithStrings | Em | EnergyDiscussion

  /** The `bubble_type` string of a kind. */
  function KindName(k: Kind): string
  {
    match k
    case Empty => "empty"
    case Instanton => "instanton"
    case Radiation => "radiation"
    case GW => "GW"
    case WithStrings => "strings"
    case Em => "em"
    case EnergyDiscussion => "energy_discussion"
  }

  /** The kind a `bubble_type` string selects; None for any other string,
      which every `==` test of the source then fails. */
  function KindOf(bubbleType: string): Option<Kind>
  {
    if bubbleType == "empty" then Some(Empty)
    else if bubbleType == "instanton" then Some(Instanton)
    else if bubbleType == "radiation" then Some(Radiation)
    else if bubbleType == "GW" then Some(GW)
    else if bubbleType == "strings" then Some(WithStrings)
    else if bubbleType == "em" then Some(Em)
    else if bubbleType == "energy_discussion" then Some(EnergyDiscussion)
    else None
  }

  /** The string tests select exactly the kind whose name was given: each
      name selects its kind, and a string that selects a kind is its name. */
  lemma KindOfName(k: Kind, bubbleType: string)
    ensures KindOf(KindName(k)) == Some(k)
    ensures KindOf(bubbleType).Some? ==> KindName(KindOf(bubbleType).value) == bubbleType
  {
  }

  /** `self.bubble` for a kind; an unrecognised type builds none. */
  function Parts(k: Option<Kind>): (r: Option<seq<BubblePart>>)
    ensures r.Some? <==> k.Some?
    ensures r.Some? ==> 4 <= |r.value|
  {
    match k
    case None => None
    case Some(Empty) => Some([Background, OutText, Brane, InText, RadiusInfo])
    case Some(Instanton) => Some([Background, OutInstaText, Brane, InInstaText])
    case Some(Radiation) => Some([Background, OutText, Brane, InText, Mass])
    case Some(GW) => Some([Background, OutText, BraneWaves, InText])
    case Some(WithStrings) => Some([Background, OutText, BraneWithAnchor, Strings, InText])
    case Some(Em) => Some([Background, OutText, Brane, InText, FieldTop, FieldGlow])
    case Some(EnergyDiscussion) => Some([Background, OutText, FakeBrane, Brane, EnergyCostBubble])
  }

  /** Reading `self.bubble`: an AttributeError when the type built none. */
  function Group(k: Option<Kind>): (r: Result<seq<BubblePart>>)
    ensures r.Ok? <==> k.Some?
    ensures r.Err? ==> r.error == AttributeError
  {
    match Parts(k)
    case Some(ps) => Ok(ps)
    case None => Err(AttributeError)
  }

  /** What the constructor adds to the scene object: the bubble group, and
      for `energy_discussion` the bar, the inside label and the bar's filling
      beside it. */
  function Children(k: Option<Kind>): seq<Mob<BubblePart>>
  {
    match Parts(k)
    case None => []
    case Some(ps) =>
      var group := Mob.Group(seq(|ps|, i requires 0 <= i < |ps| => Part(ps[i])));
      if k == Some(EnergyDiscussion) then [group, Part(BarOutside), Part(InText), Part(EnergyGain)]
      else [group]
  }

  /** The inside label of a kind: the part `create_bubble` is documented
      to display. */
  function InsideLabel(k: Kind): BubblePart
  {
    if k == Instanton then InInstaText else InText
  }

  /** Every kind has the background and an outside label first and a
      brane-like part at index 2 ("the bubble is always the 3rd element"),
      and every kind but `energy_discussion` lists its inside label; an
      unrecognised type has no parts and adds nothing to the scene. */
  lemma PartsLayout(k: Option<Kind>)
    ensures k.Some? ==>
              var ps := Parts(k).value;
              4 <= |ps| <= 6 && ps[0] == Background && ps[1] in {OutText, OutInstaText} &&
              ps[2] in {Brane, BraneWaves, BraneWithAnchor, FakeBrane} &&
              (k.value != EnergyDiscussion ==> InsideLabel(k.value) in ps)
    ensures k.None? ==> Children(k) == []
  {
  }

  /** `fade_in_bulk`. */
  function FadeInBulk(k: Option<Kind>, rt: real := 1.0): (r: Result<Anim<BubblePart>>)
    ensures r.Ok? <==> k.Some?
  {
    var ps :- Group(k);
    if k == Some(EnergyDiscussion) then
      Ok(Succession([FadeIn(Slice(ps, None, Some(2)), rt), FadeIn([ps[|ps| - 1]], rt),
                     Create([BarOutside, EnergyGain], rt)]))
    else Ok(FadeIn(Slice(ps, None, Some(2)), rt))
  }

  /** The animation `fail_creation` returns (its in-place rescale of
      `bubble[2]` is `Bubble.FailCreation`). Its rate function defaults to
      `there_and_back_with_pause`, which ends where it began: the tracker
      climbs to 2 and falls back, and `bubble[2]` grows and shrinks back. */
  function FailCreationAnim(k: Option<Kind>, rt: real := 3.0, rf: RateEnd := Returns): (r: Result<Anim<BubblePart>>)
    ensures r.Ok? <==> k.Some?
  {
    var ps :- Group(k);
    Ok(AnimationGroup([Animate([VacuumTracker], [SetValue(2.0)], rt, rf), GrowFromCenter([ps[2]], rt)]))
  }

  /** `create_bubble` as written. */
  function CreateBubble(k: Option<Kind>, rt: real := 0.2): (r: Result<Anim<BubblePart>>)
    ensures r.Ok? <==> k.Some?
  {
    var ps :- Group(k);
    if k == Some(EnergyDiscussion) then
      Ok(Succession([Animate([VacuumTracker], [SetValue(2.5)], 5.0 * rt),
                     GrowFromCenter([ps[3]], 5.0 * rt),
                     Animate([EnergyCostBubble], [SetOpacity(0.0)], DefaultRunTime)]))
    else
      var brane := ps[2];
      if k == Some(Em) then
        Ok(Succession([GrowFromCenter([brane], rt), FadeIn(Slice(ps, Some(3), Some(-2)), rt),
                       Create([FieldTop], rt), Wait(DefaultRunTime), Create([FieldGlow], 2.0 * rt)]))
      else if k == Some(WithStrings) then
        Ok(Succession([GrowFromCenter([brane], rt), Create([Strings], rt), FadeIn([ps[|ps| - 1]], rt)]))
      else if k == Some(Radiation) then
        Ok(Succession([GrowFromCenter([brane], rt), FadeIn(Slice(ps, Some(3), None), rt)]))
      else
        Ok(Succession([GrowFromCenter([brane], rt), FadeIn(Slice(ps, Some(3), Some(-1)), rt)]))
  }

  /** `create_bubble` as its documentation describes it: the fallback
      branch fades in the inside label `bubble[3]`. */
  function CreateBubbleIntended(k: Option<Kind>, rt: real := 0.2): (r: Result<Anim<BubblePart>>)
    ensures r.Ok? <==> k.Some?
  {
    if k in {Some(EnergyDiscussion), Some(Em), Some(WithStrings), Some(Radiation)} then CreateBubble(k, rt)
    else
      var ps :- Group(k);
      Ok(Succession([GrowFromCenter([ps[2]], rt), FadeIn([ps[3]], rt)]))
  }

  /** The animation `expand_bubble` returns (its in-place rescale of the GW
      wave copy is `Bubble.ExpandBubble`). */
  function ExpandBubbleAnim(k: Option<Kind>, rt: real := 6.0, sca: real := 2.5): (r: Result<Anim<BubblePart>>)
    ensures r.Ok?
  {
    if k == Some(EnergyDiscussion) then
      Ok(Succession([Animate([VacuumTracker], [SetValue(4.5)], rt / 3.0),
                     Animate([Parts(k).value[3]], [ScaleBy(sca)], rt)]))
    else if k == Some(GW) then
      Ok(AnimationGroup([Animate([BraneWaves], [ScaleBy(sca)], rt),
                         Broadcast(Waves, CenterOf(Parts(k).value[2]), 15, rt)]))
    else if k == Some(Em) then
      var ps := Parts(k).value;
      Ok(AnimationGroup([Animate([Brane], [ScaleBy(0.8 * sca)], rt),
                         Animate(Slice(ps, Some(-2), None), [ScaleBy(0.8 * sca)], rt)]))
    else if k == Some(WithStrings) then
      Ok(AnimationGroup([Animate([BraneWithAnchor], [ScaleBy(sca)], rt)]))
    else
      Ok(AnimationGroup([Animate([Brane], [ScaleBy(sca)], rt)]))
  }

  /** `show_radius`: the inside label moves below the brane's centre, then
      the radius line and its label are drawn. */
  function ShowRadius(rt: real := 1.0): Anim<BubblePart>
  {
    Succession([Animate([InText], [MoveTo(BelowCenterOf(Brane))], DefaultRunTime),
                Create([RadiusInfo], rt)])
  }

  /** The bulk fade-in brings exactly the background and the outside label;
      `energy_discussion` then also brings the dashed energy-cost circle and
      draws the bar. */
  lemma FadeInBulkTargets(k: Kind, rt: real)
    ensures FadeInBulk(Some(k), rt).Ok?
    ensures var ps := Parts(Some(k)).value;
            Introduced(FadeInBulk(Some(k), rt).value) ==
              ps[..2] + (if k == EnergyDiscussion then [EnergyCostBubble, BarOutside, EnergyGain] else [])
  {
    var ps := Parts(Some(k)).value;
    assert Slice(ps, None, Some(2)) == ps[..2];
    if k == EnergyDiscussion {
      Steps3(FadeIn(ps[..2], rt), FadeIn([EnergyCostBubble], rt), Create([BarOutside, EnergyGain], rt), VacuumTracker);
    }
  }

  /** Without a bubble group, the three builders that read it raise
      AttributeError; `expand_bubble` and `show_radius` never read it and
      still build their animations, scaling the brane. */
  lemma UnknownTypeErrors(rt: real)
    ensures FadeInBulk(None) == Err(AttributeError)
    ensures FailCreationAnim(None) == Err(AttributeError)
    ensures CreateBubble(None) == Err(AttributeError)
    ensures ExpandBubbleAnim(None, rt) == Ok(AnimationGroup([Animate([Brane], [ScaleBy(2.5)], rt)]))
  {
  }

  /** The steps of `create_bubble` for `em`, unfolded. */
  lemma CreateEmSteps(rt: real)
    ensures Introduced(CreateBubble(Some(Em), rt).value) == [Brane, InText, FieldTop, FieldGlow]
  {
    assert Slice(Parts(Some(Em)).value, Some(3), Some(-2)) == [InText];
    assert CreateBubble(Some(Em), rt).value.items == EmSteps(rt);
    EmStepsIntroduce(rt);
  }

  function EmSteps(rt: real): seq<Anim<BubblePart>>
  {
    [GrowFromCenter([Brane], rt), FadeIn([InText], rt),
     Create([FieldTop], rt), Wait(DefaultRunTime), Create([FieldGlow], 2.0 * rt)]
  }

  lemma EmStepsIntroduce(rt: real)
    ensures IntroducedAll(EmSteps(rt)) == [Brane, InText, FieldTop, FieldGlow]
  {
    var s := EmSteps(rt);
    Steps3(s[2], s[3], s[4], VacuumTracker);
    assert IntroducedAll(s[2..]) == [FieldTop, FieldGlow] by {
      assert s[2..] == [s[2], s[3], s[4]];
    }
    assert s[1..][1..] == s[2..];
    assert s[1..][0] == s[1];
    assert IntroducedAll(s[1..]) == [InText, FieldTop, FieldGlow];
  }

  /** The steps of `create_bubble` for `strings`, unfolded. */
  lemma CreateStringsSteps(rt: real)
    ensures Introduced(CreateBubble(Some(WithStrings), rt).value) == [BraneWithAnchor, Strings, InText]
  {
    Steps3(GrowFromCenter([BraneWithAnchor], rt), Create([Strings], rt), FadeIn([InText], rt), VacuumTracker);
  }

  /** The steps of `create_bubble` for `radiation`, unfolded. */
  lemma CreateRadiationSteps(rt: real)
    ensures Introduced(CreateBubble(Some(Radiation), rt).value) == [Brane, InText, Mass]
  {
    assert Slice(Parts(Some(Radiation)).value, Some(3), None) == [InText, Mass];
    Steps2(GrowFromCenter([Brane], rt), FadeIn([InText, Mass], rt), VacuumTracker);
  }

  /** The steps of `create_bubble` for `energy_discussion`, unfolded: the
      real brane grows and the tracker is driven to 2.5. */
  lemma CreateEnergySteps(rt: real)
    ensures Introduced(CreateBubble(Some(EnergyDiscussion), rt).value) == [Brane]
    ensures TrackerTargets(CreateBubble(Some(EnergyDiscussion), rt).value, VacuumTracker) == [2.5]
    ensures TrackerStops(CreateBubble(Some(EnergyDiscussion), rt).value, VacuumTracker) == [2.5]
  {
    assert CreateBubble(Some(EnergyDiscussion), rt).value.items == EnergySteps(rt);
    EnergyStepsSummary(rt);
  }

  function EnergySteps(rt: real): seq<Anim<BubblePart>>
  {
    [Animate([VacuumTracker], [SetValue(2.5)], 5.0 * rt), GrowFromCenter([Brane], 5.0 * rt),
     Animate([EnergyCostBubble], [SetOpacity(0.0)], DefaultRunTime)]
  }

  lemma EnergyStepsSummary(rt: real)
    ensures IntroducedAll(EnergySteps(rt)) == [Brane]
    ensures TrackerTargetsAll(EnergySteps(rt), VacuumTracker) == [2.5]
    ensures TrackerStopsAll(EnergySteps(rt), VacuumTracker) == [2.5]
  {
    var s := EnergySteps(rt);
    Steps3(s[0], s[1], s[2], VacuumTracker);
    var ops: seq<Op<BubblePart>> := [SetValue(2.5)];
    assert ops[1..] == [];
    var ops2: seq<Op<BubblePart>> := [SetOpacity(0.0)];
    assert ops2[1..] == [];
  }

  /** The fallback branch of `create_bubble` (`empty`, `instanton`, `GW`):
      the brane-like part, then whatever `bubble[3:-1]` holds. */
  lemma CreateFallbackSteps(k: Kind, rt: real)
    requires k in {Empty, Instanton, GW}
    ensures var ps := Parts(Some(k)).value;
            Introduced(CreateBubble(Some(k), rt).value) == [ps[2]] + Slice(ps, Some(3), Some(-1))
  {
    var ps := Parts(Some(k)).value;
    Steps2(GrowFromCenter([ps[2]], rt), FadeIn(Slice(ps, Some(3), Some(-1)), rt), VacuumTracker);
  }

  /** The intended fallback: the brane-like part, then the inside label. */
  lemma CreateIntendedFallbackSteps(k: Kind, rt: real)
    requires k in {Empty, Instanton, GW}
    ensures var ps := Parts(Some(k)).value;
            Introduced(CreateBubbleIntended(Some(k), rt).value) == [ps[2], ps[3]]
  {
    var ps := Parts(Some(k)).value;
    Steps2(GrowFromCenter([ps[2]], rt), FadeIn([ps[3]], rt), VacuumTracker);
  }

  /** `create_bubble`, kind by kind: what is brought on screen, in order. */
  lemma CreateBubbleOrder(rt: real)
    ensures Introduced(CreateBubble(Some(Em), rt).value) == [Brane, InText, FieldTop, FieldGlow]
    ensures Introduced(CreateBubble(Some(WithStrings), rt).value) == [BraneWithAnchor, Strings, InText]
    ensures Introduced(CreateBubble(Some(Radiation), rt).value) == [Brane, InText, Mass]
    ensures Introduced(CreateBubble(Some(Empty), rt).value) == [Brane, InText]
    ensures Introduced(CreateBubble(Some(EnergyDiscussion), rt).value) == [Brane]
  {
    CreateEmSteps(rt);
    CreateStringsSteps(rt);
    CreateRadiationSteps(rt);
    CreateFallbackSteps(Empty, rt);
    assert Slice(Parts(Some(Empty)).value, Some(3), Some(-1)) == [InText];
    CreateEnergySteps(rt);
  }

  /** `show_radius` brings on the radius line and its label, and nothing
      else. */
  lemma ShowRadiusSteps(rt: real)
    ensures Introduced(ShowRadius(rt)) == [RadiusInfo]
  {
    Steps2(Animate([InText], [MoveTo(BelowCenterOf(Brane))], DefaultRunTime), Create([RadiusInfo], rt), VacuumTracker);
  }

  /** `fail_creation` grows `bubble[2]` and drives the tracker towards 2;
      the tracker stays at 2 only under a rate function that ends at 1. */
  lemma FailCreationSteps(k: Kind, rt: real, rf: RateEnd)
    ensures Introduced(FailCreationAnim(Some(k), rt, rf).value) == [Parts(Some(k)).value[2]]
    ensures TrackerTargets(FailCreationAnim(Some(k), rt, rf).value, VacuumTracker) == [2.0]
    ensures TrackerStops(FailCreationAnim(Some(k), rt, rf).value, VacuumTracker)
            == if rf == Arrives then [2.0] else []
  {
    var ps := Parts(Some(k)).value;
    Steps2(Animate([VacuumTracker], [SetValue(2.0)], rt, rf), GrowFromCenter([ps[2]], rt), VacuumTracker);
  }

  /** `expand_bubble` for `energy_discussion`: the real brane scales by sca
      and the tracker is driven to 4.5. */
  lemma ExpandEnergySteps(rt: real, sca: real)
    ensures Scalings(ExpandBubbleAnim(Some(EnergyDiscussion), rt, sca).value) == [(Brane, sca)]
    ensures Introduced(ExpandBubbleAnim(Some(EnergyDiscussion), rt, sca).value) == []
    ensures TrackerTargets(ExpandBubbleAnim(Some(EnergyDiscussion), rt, sca).value, VacuumTracker) == [4.5]
    ensures TrackerStops(ExpandBubbleAnim(Some(EnergyDiscussion), rt, sca).value, VacuumTracker) == [4.5]
  {
    ScaleEach([Brane], sca);
    Steps2(Animate([VacuumTracker], [SetValue(4.5)], rt / 3.0), Animate([Brane], [ScaleBy(sca)], rt), VacuumTracker);
  }

  /** `expand_bubble` for `GW`: the wavy brane scales by sca while the
      waves are broadcast. */
  lemma ExpandGWSteps(rt: real, sca: real)
    ensures Scalings(ExpandBubbleAnim(Some(GW), rt, sca).value) == [(BraneWaves, sca)]
    ensures Introduced(ExpandBubbleAnim(Some(GW), rt, sca).value) == []
  {
    ScaleEach([BraneWaves], sca);
    Steps2(Animate([BraneWaves], [ScaleBy(sca)], rt), Broadcast(Waves, CenterOf(BraneWaves), 15, rt), VacuumTracker);
  }

  /** `expand_bubble` for `em`: the brane and the two field parts scale by
      0.8·sca. */
  lemma ExpandEmSteps(rt: real, sca: real)
    ensures Scalings(ExpandBubbleAnim(Some(Em), rt, sca).value)
            == [(Brane, 0.8 * sca), (FieldTop, 0.8 * sca), (FieldGlow, 0.8 * sca)]
  {
    assert Slice(Parts(Some(Em)).value, Some(-2), None) == [FieldTop, FieldGlow];
    ScaleEach([Brane], 0.8 * sca);
    ScaleEach([FieldTop, FieldGlow], 0.8 * sca);
    Steps2(Animate([Brane], [ScaleBy(0.8 * sca)], rt), Animate([FieldTop, FieldGlow], [ScaleBy(0.8 * sca)], rt), VacuumTracker);
  }

  /** `expand_bubble` for every other type, recognised or not: one part
      scales by sca. */
  lemma ExpandPlainSteps(k: Option<Kind>, rt: real, sca: real)
    requires k !in {Some(EnergyDiscussion), Some(GW), Some(Em)}
    ensures var p := if k == Some(WithStrings) then BraneWithAnchor else Brane;
            Scalings(ExpandBubbleAnim(k, rt, sca).value) == [(p, sca)] &&
            Introduced(ExpandBubbleAnim(k, rt, sca).value) == []
  {
    var p := if k == Some(WithStrings) then BraneWithAnchor else Brane;
    ScaleEach([p], sca);
    Steps1(Animate([p], [ScaleBy(sca)], rt), VacuumTracker);
  }

  /** `expand_bubble`, kind by kind: what is scaled and by how much; an
      unrecognised type scales the brane like `empty`. */
  lemma ExpandBubbleTargets(k: Option<Kind>, rt: real, sca: real)
    ensures Scalings(ExpandBubbleAnim(k, rt, sca).value) ==
              if k == Some(EnergyDiscussion) then [(Brane, sca)]
              else if k == Some(GW) then [(BraneWaves, sca)]
              else if k == Some(Em) then [(Brane, 0.8 * sca), (FieldTop, 0.8 * sca), (FieldGlow, 0.8 * sca)]
              else if k == Some(WithStrings) then [(BraneWithAnchor, sca)]
              else [(Brane, sca)]
  {
    if k == Some(EnergyDiscussion) {
      ExpandEnergySteps(rt, sca);
    } else if k == Some(GW) {
      ExpandGWSteps(rt, sca);
    } else if k == Some(Em) {
      ExpandEmSteps(rt, sca);
    } else {
      ExpandPlainSteps(k, rt, sca);
    }
  }

  /** As written, `create_bubble` never shows the inside label of an
      `instanton` or `GW` bubble: the slice `bubble[3:-1]` of a four-part
      list is empty. No other builder brings it on screen either. */
  lemma CreateBubbleSkipsInsideLabel(k: Kind, rt: real)
    requires k == Instanton || k == GW
    ensures Introduced(CreateBubble(Some(k), rt).value) == [Parts(Some(k)).value[2]]
    ensures InsideLabel(k) !in Introduced(CreateBubble(Some(k), rt).value)
    ensures InsideLabel(k) !in Introduced(FadeInBulk(Some(k)).value)
    ensures InsideLabel(k) !in Introduced(ExpandBubbleAnim(Some(k)).value)
    ensures InsideLabel(k) !in Introduced(ShowRadius())
  {
    var ps := Parts(Some(k)).value;
    CreateFallbackSteps(k, rt);
    assert Slice(ps, Some(3), Some(-1)) == [];
    OtherBuildersSkipLabel(k);
  }

  lemma OtherBuildersSkipLabel(k: Kind)
    requires k == Instanton || k == GW
    ensures InsideLabel(k) !in Introduced(FadeInBulk(Some(k)).value)
    ensures InsideLabel(k) !in Introduced(ExpandBubbleAnim(Some(k)).value)
    ensures InsideLabel(k) !in Introduced(ShowRadius())
  {
    FadeInBulkTargets(k, 1.0);
    ShowRadiusSteps(1.0);
    if k == GW {
      ExpandGWSteps(6.0, 2.5);
    } else {
      ExpandPlainSteps(Some(k), 6.0, 2.5);
    }
  }

  /** With the intended fallback, every part of every kind is brought on
      screen by the documented sequence: `fade_in_bulk`, then
      `fail_creation` for `energy_discussion`, then `create_bubble`, then
      `show_radius` for the radius line of `empty`. */
  lemma IntendedLifecycleShowsEveryPart(k: Kind, rt: real)
    ensures var ps := Parts(Some(k)).value;
            var shown := Introduced(FadeInBulk(Some(k)).value)
                         + (if k == EnergyDiscussion then Introduced(FailCreationAnim(Some(k)).value) else [])
                         + Introduced(CreateBubbleIntended(Some(k), rt).value)
                         + (if k == Empty then Introduced(ShowRadius()) else []);
            forall p :: p in ps ==> p in shown
  {
    FadeInBulkTargets(k, 1.0);
    if k == EnergyDiscussion {
      FailCreationSteps(k, 3.0, Returns);
      CreateEnergySteps(rt);
    } else if k == Em {
      CreateEmSteps(rt);
    } else if k == WithStrings {
      CreateStringsSteps(rt);
    } else if k == Radiation {
      CreateRadiationSteps(rt);
    } else {
      CreateIntendedFallbackSteps(k, rt);
      ShowRadiusSteps(1.0);
    }
  }

  /** The intended fallback is the code wherever the code already shows
      the inside label. */
  lemma IntendedAgreesWhereCodeShowsLabel(k: Option<Kind>, rt: real)
    requires k != Some(Instanton) && k != Some(GW)
    ensures CreateBubbleIntended(k, rt) == CreateBubble(k, rt)
  {
    if k == Some(Empty) {
      assert Slice(Parts(k).value, Some(3), Some(-1)) == [InText];
    }
  }

  /** The energy bar over the documented `energy_discussion` sequence with
      default arguments: the tracker starts at 0.8; the failed nucleation
      drives it up to 2, short of the 2.5 that `create_bubble` needs, and
      back to 0.8; nucleation then leaves it at 2.5 and expansion at 4.5.
      With a bar at least 4.5 wide, as the default 8 is, the filling never
      overflows the bar. */
  lemma EnergyBarRises(boxWidth: real)
    requires boxWidth >= 4.5
    ensures var k := Some(EnergyDiscussion);
            var v0 := Settle(FadeInBulk(k).value, VacuumTracker, 0.8);
            var v1 := Settle(FailCreationAnim(k).value, VacuumTracker, v0);
            var v2 := Settle(CreateBubble(k).value, VacuumTracker, v1);
            var v3 := Settle(ExpandBubbleAnim(k).value, VacuumTracker, v2);
            v1 == v0 == 0.8 && v2 == 2.5 && v3 == 4.5 &&
            v1 < v2 < v3 <= boxWidth
    ensures var peaks := TrackerTargets(FailCreationAnim(Some(EnergyDiscussion)).value, VacuumTracker);
            peaks == [2.0] && peaks[0] < Settle(CreateBubble(Some(EnergyDiscussion)).value, VacuumTracker, 0.8)
  {
    var k := Some(EnergyDiscussion);
    FadeInBulkNoTracker();
    SettleIsLastTarget(FadeInBulk(k).value, VacuumTracker, 0.8);
    FailCreationSteps(EnergyDiscussion, 3.0, Returns);
    SettleIsLastTarget(FailCreationAnim(k).value, VacuumTracker, 0.8);
    CreateEnergySteps(0.2);
    SettleIsLastTarget(CreateBubble(k).value, VacuumTracker, 0.8);
    ExpandEnergySteps(6.0, 2.5);
    SettleIsLastTarget(ExpandBubbleAnim(k).value, VacuumTracker, 2.5);
  }

  /** The bulk fade-in of `energy_discussion` leaves the tracker alone. */
  lemma FadeInBulkNoTracker()
    ensures TrackerTargets(FadeInBulk(Some(EnergyDiscussion)).value, VacuumTracker) == []
    ensures TrackerStops(FadeInBulk(Some(EnergyDiscussion)).value, VacuumTracker) == []
  {
    assert Slice(Parts(Some(EnergyDiscussion)).value, None, Some(2)) == [Background, OutText];
    Steps3(FadeIn([Background, OutText], 1.0), FadeIn([EnergyCostBubble], 1.0),
           Create([BarOutside, EnergyGain], 1.0), VacuumTracker);
  }

  /** One string of the `strings` bubble: from the anchor at `anchorDegrees`
      on the brane to the box corner in direction `toward`, pulled back by
      `inset` along that direction. */
  datatype StringLine = StringLine(anchorDegrees: real, toward: Vec, inset: real)

  /** RIGHT, UR, UP, UL, LEFT, DL, DOWN, DR. */
  const BoxPositions: seq<Vec> := [
    Vec(1, 0, 0), Vec(1, 1, 0), Vec(0, 1, 0), Vec(-1, 1, 0),
    Vec(-1, 0, 0), Vec(-1, -1, 0), Vec(0, -1, 0), Vec(1, -1, 0)
  ]

  function NormSquared(v: Vec): int
  {
    v.x * v.x + v.y * v.y + v.z * v.z
  }

  /** The anchors and strings loop of the constructor: anchor i sits at
      i·360/8 degrees, and a string to a diagonal position (norm above 1)
      stops `cr/6` short of the corner. */
  method BuildStrings(cr: real) returns (lines: seq<StringLine>)
    ensures |lines| == |BoxPositions| == 8
    ensures forall i :: 0 <= i < 8 ==> lines[i].anchorDegrees == 45.0 * i as real
    ensures forall i :: 0 <= i < 8 ==> lines[i].toward == BoxPositions[i]
    ensures forall i :: 0 <= i < 8 ==> lines[i].inset == if i % 2 == 1 then cr / 6.0 else 0.0
  {
    lines := [];
    var i := 0;
    while i < |BoxPositions|
      invariant 0 <= i <= 8
      invariant |lines| == i
      invariant forall j :: 0 <= j < i ==> lines[j].anchorDegrees == 45.0 * j as real
      invariant forall j :: 0 <= j < i ==> lines[j].toward == BoxPositions[j]
      invariant forall j :: 0 <= j < i ==> lines[j].inset == if j % 2 == 1 then cr / 6.0 else 0.0
    {
      var position := BoxPositions[i];
      var anchor := i as real * 360.0 / 8.0;
      if NormSquared(position) > 1 {
        lines := lines + [StringLine(anchor, position, cr / 6.0)];
      } else {
        lines := lines + [StringLine(anchor, position, 0.0)];
      }
      i := i + 1;
    }
  }

  /** One ring of the glow: an annulus with these radii and fill. */
  datatype Ring = Ring(inner: real, outer: real, opacity: real, color: Color)

  /** The rings `field(grad, …)` builds, ring idx of grad. */
  function GlowRing(idx: nat, grad: nat, inner: real, rad: real, col: Color): Ring
    requires idx < grad
  {
    Ring(inner, inner + (idx as real) / (grad as real) * (rad - inner), 0.75 / (grad as real), col)
  }

  /** The glow loop: ring idx for each idx in `range(grad)`. */
  method BuildGlow(grad: nat, inner: real, rad: real, col: Color) returns (rings: seq<Ring>)
    ensures |rings| == grad
    ensures forall idx :: 0 <= idx < grad ==> rings[idx] == GlowRing(idx, grad, inner, rad, col)
  {
    rings := [];
    var idx := 0;
    while idx < grad
      invariant 0 <= idx <= grad
      invariant |rings| == idx
      invariant forall j :: 0 <= j < idx ==> rings[j] == GlowRing(j, grad, inner, rad, col)
    {
      rings := rings + [GlowRing(idx, grad, inner, rad, col)];
      idx := idx + 1;
    }
  }

  /** The glow for a brane of radius r, between 1.05·r and r + 0.6: the
      first ring is empty (outer radius equal to the inner one), and for r
      below 12 the outer radius rises strictly with idx and stays below
      r + 0.6. */
  lemma GlowRises(r: real, inner: real, rad: real, grad: nat, col: Color)
    requires 0.0 < r < 12.0 && grad > 0
    requires inner == 1.05 * r && rad == r + 0.6
    ensures GlowRing(0, grad, inner, rad, col).outer == inner
    ensures forall i, j :: 0 <= i < j < grad ==>
              GlowRing(i, grad, inner, rad, col).outer < GlowRing(j, grad, inner, rad, col).outer
    ensures forall i :: 0 <= i < grad ==> GlowRing(i, grad, inner, rad, col).outer < rad
  {
    assert inner < rad;
    forall i, j | 0 <= i < j < grad
      ensures GlowRing(i, grad, inner, rad, col).outer < GlowRing(j, grad, inner, rad, col).outer
    {
      RingsRise(i, j, grad, inner, rad, col);
    }
    forall i | 0 <= i < grad ensures GlowRing(i, grad, inner, rad, col).outer < rad {
      RingBelowRad(i, grad, inner, rad, col);
    }
  }

  /** With inner below rad, a later ring reaches further out. */
  lemma RingsRise(i: nat, j: nat, grad: nat, inner: real, rad: real, col: Color)
    requires i < j < grad && inner < rad
    ensures GlowRing(i, grad, inner, rad, col).outer < GlowRing(j, grad, inner, rad, col).outer
  {
    var g, w := grad as real, rad - inner;
    var a, b := i as real / g * w, j as real / g * w;
    FractionsRise(i as real, j as real, g, w);
    assert GlowRing(i, grad, inner, rad, col).outer == inner + a;
    assert GlowRing(j, grad, inner, rad, col).outer == inner + b;
  }

  /** With inner below rad, every ring stays inside rad. */
  lemma RingBelowRad(i: nat, grad: nat, inner: real, rad: real, col: Color)
    requires i < grad && inner < rad
    ensures GlowRing(i, grad, inner, rad, col).outer < rad
  {
    var g := grad as real;
    FractionsRise(i as real, g, g, rad - inner);
    assert g / g == 1.0;
  }

  /** x/g·w grows with x for positive g and w. */
  lemma FractionsRise(x: real, y: real, g: real, w: real)
    requires x < y && g > 0.0 && w > 0.0
    ensures x / g * w < y / g * w
  {
    var d := y / g - x / g;
    assert d * g == y - x;
    assert d > 0.0;
    assert y / g * w - x / g * w == d * w;
  }

  /** The sum of the rings' opacities. */
  function TotalOpacity(rings: seq<Ring>): real
  {
    if rings == [] then 0.0 else rings[0].opacity + TotalOpacity(rings[1..])
  }

  /** The rings of a glow together add up to opacity 0.75, whatever the
      number of rings. */
  lemma GlowOpacityTotal(rings: seq<Ring>, grad: nat, inner: real, rad: real, col: Color)
    requires grad > 0 && |rings| == grad
    requires forall idx :: 0 <= idx < grad ==> rings[idx] == GlowRing(idx, grad, inner, rad, col)
    ensures TotalOpacity(rings) == 0.75
  {
    EqualOpacities(rings, 0.75 / (grad as real));
  }

  lemma {:induction false} EqualOpacities(rings: seq<Ring>, o: real)
    requires forall i :: 0 <= i < |rings| ==> rings[i].opacity == o
    ensures TotalOpacity(rings) == |rings| as real * o
  {
    if rings != [] {
      EqualOpacities(rings[1..], o);
    }
  }

  /**
   * A bubble on screen. The part list, strings and glow are fixed at
   * construction; `scale` records the in-place rescaling the builders apply
   * to parts (1 when absent), and `tracker` is the energy bar's tracker.
   * The brane and vacuum styles the source inherits are held as the two
   * style objects.
   */
  class Bubble {
    const bubbleType: string
    const kind: Option<Kind>
    const boxHeight: real
    const boxWidth: real
    const stringColor: Color
    const stringStrokeW: real
    const fieldGradient: nat
    const fieldTopColor: Color
    const fieldBulkColor: Color
    const brane: BraneGeneral
    const vacuum: VacuumGeneral
    const bubble: Option<seq<BubblePart>>
    const children: seq<Mob<BubblePart>>
    const strings: seq<StringLine>
    const glow: seq<Ring>
    const fieldTopRadius: real
    const tracker: ValueTracker<BubblePart>
    var scale: map<BubblePart, real>

    constructor (brane: BraneGeneral, vacuum: VacuumGeneral, bubbleType: string := "empty",
                 boxHeight: real := 6.0, boxWidth: real := 8.0, stringColor: Color := Blue,
                 stringStrokeW: real := 1.5, fieldGradient: nat := 50, fieldTopColor: Color := Blue,
                 fieldBulkColor: Color := Pink)
      ensures this.bubbleType == bubbleType && kind == KindOf(bubbleType)
      ensures this.boxWidth == boxWidth && this.boxHeight == boxHeight
      ensures this.stringColor == stringColor && this.stringStrokeW == stringStrokeW
      ensures this.fieldTopColor == fieldTopColor && this.fieldBulkColor == fieldBulkColor
      ensures this.brane == brane && this.vacuum == vacuum
      ensures bubble == Parts(kind) && children == Children(kind)
      ensures |strings| == 8
      ensures forall i :: 0 <= i < 8 ==> strings[i].anchorDegrees == 45.0 * i as real
      ensures forall i :: 0 <= i < 8 ==> strings[i].toward == BoxPositions[i]
      ensures forall i :: 0 <= i < 8 ==> strings[i].inset == if i % 2 == 1 then vacuum.cr / 6.0 else 0.0
      ensures |glow| == fieldGradient
      ensures forall i :: 0 <= i < fieldGradient ==>
                glow[i] == GlowRing(i, fieldGradient, fieldTopRadius, brane.braneRadius + 0.6, fieldTopColor)
      ensures fieldTopRadius == 1.05 * brane.braneRadius
      ensures fresh(tracker) && tracker.tag == VacuumTracker && tracker.value == 0.8
      ensures scale == map[]
    {
      this.brane := brane;
      this.vacuum := vacuum;
      this.bubbleType := bubbleType;
      this.kind := KindOf(bubbleType);
      this.boxHeight := boxHeight;
      this.boxWidth := boxWidth;
      this.stringColor := stringColor;
      this.stringStrokeW := stringStrokeW;
      this.fieldGradient := fieldGradient;
      this.fieldTopColor := fieldTopColor;
      this.fieldBulkColor := fieldBulkColor;
      var lines := BuildStrings(vacuum.cr);
      this.strings := lines;
      var rings := BuildGlow(fieldGradient, 1.05 * brane.braneRadius, brane.braneRadius + 0.6, fieldTopColor);
      this.glow := rings;
      this.fieldTopRadius := 1.05 * brane.braneRadius;
      this.tracker := new ValueTracker(VacuumTracker, 0.8);
      this.bubble := Parts(KindOf(bubbleType));
      this.children := Children(KindOf(bubbleType));
      this.scale := map[];
    }

    /** The scale a part has been given in place so far. */
    function ScaleOf(p: BubblePart): real
      reads this
    {
      if p in scale then scale[p] else 1.0
    }

    /** `fail_creation`: builds the animation and, when `bubble[2]` exists,
        shrinks it to 0.8 of its size in place. */
    method FailCreation(rt: real := 3.0, rf: RateEnd := Returns) returns (r: Result<Anim<BubblePart>>)
      modifies this
      ensures r == FailCreationAnim(kind, rt, rf)
      ensures kind.Some? ==> var p := Parts(kind).value[2];
                             scale == old(scale)[p := old(ScaleOf(p)) * 0.8]
      ensures kind.None? ==> scale == old(scale)
    {
      r := FailCreationAnim(kind, rt, rf);
      if kind.Some? {
        PartsLayout(kind);
        var p := Parts(kind).value[2];
        scale := scale[p := ScaleOf(p) * 0.8];
      }
    }

    /** `expand_bubble`: builds the animation; for `GW` the wave copy that
        is broadcast is first scaled in place by 0.6·sca, so repeated calls
        compound. */
    method ExpandBubble(rt: real := 6.0, sca: real := 2.5) returns (r: Result<Anim<BubblePart>>)
      modifies this
      ensures r == ExpandBubbleAnim(kind, rt, sca)
      ensures kind == Some(GW) ==> scale == old(scale)[Waves := old(ScaleOf(Waves)) * (0.6 * sca)]
      ensures kind != Some(GW) ==> scale == old(scale)
    {
      r := ExpandBubbleAnim(kind, rt, sca);
      if kind == Some(GW) {
        scale := scale[Waves := ScaleOf(Waves) * (0.6 * sca)];
      }
    }
  }
}
