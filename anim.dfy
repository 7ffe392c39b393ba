/**
 * The animation values the scene objects return, as a tree: primitive
 * animations on tagged parts, composed in sequence (manim's `Succession`)
 * or in parallel (`AnimationGroup`). Drawing and interpolation belong to
 * the renderer; what is kept is which parts each step targets, in what
 * order, for how long, and which values a step drives a tracker to.
 */
module Anim {

  /** manim's default `run_time`, also the length of a bare `Wait()`. */
  const DefaultRunTime: real := 1.0

  /** A rotation axis, as the three-element lists the source passes. */
  datatype Vec = Vec(x: int, y: int, z: int)

  /** Where a `move_to`, `next_to` or `about_point` refers to. */
  datatype Place<P> =
    | CenterOf(p: P)
    | RightEdgeOf(p: P)
    | BelowCenterOf(p: P)

  /** One link of a `part.animate.…` builder chain. */
  datatype Op<P> =
    | ScaleBy(factor: real)
    | RotateBy(degrees: real)
    | MoveTo(place: Place<P>)
    | SetValue(value: real)
    | SetOpacity(opacity: real)

  /** Where a step's rate function ends. `linear`, `smooth` and `rush_into`
      end at 1, so the step leaves its parts at the target it was built
      with; `there_and_back` and `there_and_back_with_pause` end at 0, so
      the step leaves them as they were when it began. */
  datatype RateEnd = Arrives | Returns

  datatype Anim<P> =
    | FadeIn(targets: seq<P>, runTime: real)
    | FadeOut(targets: seq<P>, runTime: real)
    | GrowFromCenter(targets: seq<P>, runTime: real)
    | Create(targets: seq<P>, runTime: real)
    | Write(targets: seq<P>, runTime: real)
    | Animate(targets: seq<P>, ops: seq<Op<P>>, runTime: real, rate: RateEnd := Arrives)
    | Rotate(targets: seq<P>, degrees: real, about: Place<P>, axis: Vec, runTime: real)
    | MoveAlongPath(mover: P, path: P, runTime: real)
    | Broadcast(target: P, focal: Place<P>, copies: nat, runTime: real)
    | Wait(runTime: real)
    | Succession(items: seq<Anim<P>>)
    | AnimationGroup(items: seq<Anim<P>>)

  /** A scene-graph node: a tagged part or a group of nodes. */
  datatype Mob<P> = Part(p: P) | Group(members: seq<Mob<P>>)

  /** The parts an animation brings onto the screen (fade, grow, create,
      write), in the order the steps name them. */
  function Introduced<P>(a: Anim<P>): seq<P>
  {
    match a
    case FadeIn(ts, _) => ts
    case GrowFromCenter(ts, _) => ts
    case Create(ts, _) => ts
    case Write(ts, _) => ts
    case Succession(items) => IntroducedAll(items)
    case AnimationGroup(items) => IntroducedAll(items)
    case _ => []
  }

  function IntroducedAll<P>(items: seq<Anim<P>>): seq<P>
  {
    if items == [] then [] else Introduced(items[0]) + IntroducedAll(items[1..])
  }

  /** The parts an animation fades out, in order. */
  function Removed<P>(a: Anim<P>): seq<P>
  {
    match a
    case FadeOut(ts, _) => ts
    case Succession(items) => RemovedAll(items)
    case AnimationGroup(items) => RemovedAll(items)
    case _ => []
  }

  function RemovedAll<P>(items: seq<Anim<P>>): seq<P>
  {
    if items == [] then [] else Removed(items[0]) + RemovedAll(items[1..])
  }

  /** Every (part, factor) pair that a `.animate.scale` step applies, in order. */
  function Scalings<P>(a: Anim<P>): seq<(P, real)>
  {
    match a
    case Animate(ts, ops, _, _) => ScalingsOf(ts, ops)
    case Succession(items) => ScalingsAll(items)
    case AnimationGroup(items) => ScalingsAll(items)
    case _ => []
  }

  function ScalingsOf<P>(ts: seq<P>, ops: seq<Op<P>>): seq<(P, real)>
  {
    if ops == [] then []
    else (if ops[0].ScaleBy? then seq(|ts|, i requires 0 <= i < |ts| => (ts[i], ops[0].factor)) else [])
         + ScalingsOf(ts, ops[1..])
  }

  function ScalingsAll<P>(items: seq<Anim<P>>): seq<(P, real)>
  {
    if items == [] then [] else Scalings(items[0]) + ScalingsAll(items[1..])
  }

  /** The (mover, path) pairs of every `MoveAlongPath` step, in order. */
  function PathMoves<P>(a: Anim<P>): seq<(P, P)>
  {
    match a
    case MoveAlongPath(m, p, _) => [(m, p)]
    case Succession(items) => PathMovesAll(items)
    case AnimationGroup(items) => PathMovesAll(items)
    case _ => []
  }

  function PathMovesAll<P>(items: seq<Anim<P>>): seq<(P, P)>
  {
    if items == [] then [] else PathMoves(items[0]) + PathMovesAll(items[1..])
  }

  /** How long an animation runs: a succession takes the sum of its steps,
      a group as long as its longest member. */
  function Duration<P>(a: Anim<P>): real
  {
    match a
    case Succession(items) => DurationSum(items)
    case AnimationGroup(items) => DurationMax(items)
    case _ => a.runTime
  }

  function DurationSum<P>(items: seq<Anim<P>>): real
  {
    if items == [] then 0.0 else Duration(items[0]) + DurationSum(items[1..])
  }

  function DurationMax<P>(items: seq<Anim<P>>): real
  {
    if items == [] then 0.0
    else
      var d, rest := Duration(items[0]), DurationMax(items[1..]);
      if d < rest then rest else d
  }

  /** The values that `tracker.animate.set_value(v)` steps drive the part
      `t` towards, in the order they run, whether or not the step's rate
      function leaves it there. */
  function TrackerTargets<P(==)>(a: Anim<P>, t: P): seq<real>
  {
    match a
    case Animate(ts, ops, _, _) => if t in ts then ValuesOf(ops) else []
    case Succession(items) => TrackerTargetsAll(items, t)
    case AnimationGroup(items) => TrackerTargetsAll(items, t)
    case _ => []
  }

  function TrackerTargetsAll<P(==)>(items: seq<Anim<P>>, t: P): seq<real>
  {
    if items == [] then [] else TrackerTargets(items[0], t) + TrackerTargetsAll(items[1..], t)
  }

  /** The values that `set_value` steps on `t` leave it at: those of the
      steps whose rate function ends at 1, in the order they run. */
  function TrackerStops<P(==)>(a: Anim<P>, t: P): seq<real>
  {
    match a
    case Animate(ts, ops, _, rate) => if t in ts && rate == Arrives then ValuesOf(ops) else []
    case Succession(items) => TrackerStopsAll(items, t)
    case AnimationGroup(items) => TrackerStopsAll(items, t)
    case _ => []
  }

  function TrackerStopsAll<P(==)>(items: seq<Anim<P>>, t: P): seq<real>
  {
    if items == [] then [] else TrackerStops(items[0], t) + TrackerStopsAll(items[1..], t)
  }

  /** Whether some step on `t` has a rate function that returns to the
      start. */
  predicate Returning<P(==)>(a: Anim<P>, t: P)
  {
    match a
    case Animate(ts, _, _, rate) => t in ts && rate == Returns
    case Succession(items) => ReturningAll(items, t)
    case AnimationGroup(items) => ReturningAll(items, t)
    case _ => false
  }

  predicate ReturningAll<P(==)>(items: seq<Anim<P>>, t: P)
  {
    items != [] && (Returning(items[0], t) || ReturningAll(items[1..], t))
  }

  /** Without a returning step every target is also a stop. */
  lemma {:induction false} StopsAreTargets<P>(a: Anim<P>, t: P)
    requires !Returning(a, t)
    ensures TrackerStops(a, t) == TrackerTargets(a, t)
  {
    match a
    case Succession(items) => StopsAreTargetsAll(items, t);
    case AnimationGroup(items) => StopsAreTargetsAll(items, t);
    case _ =>
  }

  lemma {:induction false} StopsAreTargetsAll<P>(items: seq<Anim<P>>, t: P)
    requires !ReturningAll(items, t)
    ensures TrackerStopsAll(items, t) == TrackerTargetsAll(items, t)
  {
    if items != [] {
      StopsAreTargets(items[0], t);
      StopsAreTargetsAll(items[1..], t);
    }
  }

  function ValuesOf<P>(ops: seq<Op<P>>): seq<real>
  {
    if ops == [] then []
    else (if ops[0].SetValue? then [ops[0].value] else []) + ValuesOf(ops[1..])
  }

  /** The value a tracker tagged `t` holds once `a` has been played from
      `v`: each `set_value` step whose rate function ends at 1 overwrites
      it, in playing order; a step that returns leaves the value it began
      with. */
  function Settle<P(==)>(a: Anim<P>, t: P, v: real): real
  {
    match a
    case Animate(ts, ops, _, rate) => if t in ts && rate == Arrives then SettleOps(ops, v) else v
    case Succession(items) => SettleAll(items, t, v)
    case AnimationGroup(items) => SettleAll(items, t, v)
    case _ => v
  }

  function SettleAll<P(==)>(items: seq<Anim<P>>, t: P, v: real): real
  {
    if items == [] then v else SettleAll(items[1..], t, Settle(items[0], t, v))
  }

  function SettleOps<P>(ops: seq<Op<P>>, v: real): real
  {
    if ops == [] then v
    else SettleOps(ops[1..], if ops[0].SetValue? then ops[0].value else v)
  }

  /** Playing an animation leaves its tracker at the last value a step
      that arrives sets on it, or where it was if there is none. */
  lemma {:induction false} SettleIsLastTarget<P>(a: Anim<P>, t: P, v: real)
    ensures var vs := TrackerStops(a, t);
            Settle(a, t, v) == if vs == [] then v else vs[|vs| - 1]
  {
    match a
    case Animate(ts, ops, _, rate) =>
      if t in ts && rate == Arrives { SettleOpsIsLast(ops, v); }
    case Succession(items) => SettleAllIsLast(items, t, v);
    case AnimationGroup(items) => SettleAllIsLast(items, t, v);
    case _ =>
  }

  lemma {:induction false} SettleAllIsLast<P>(items: seq<Anim<P>>, t: P, v: real)
    ensures var vs := TrackerStopsAll(items, t);
            SettleAll(items, t, v) == if vs == [] then v else vs[|vs| - 1]
  {
    if items != [] {
      var w := Settle(items[0], t, v);
      SettleIsLastTarget(items[0], t, v);
      SettleAllIsLast(items[1..], t, w);
      var head, rest := TrackerStops(items[0], t), TrackerStopsAll(items[1..], t);
      assert TrackerStopsAll(items, t) == head + rest;
      if rest != [] {
        assert (head + rest)[|head + rest| - 1] == rest[|rest| - 1];
      }
    }
  }

  lemma {:induction false} SettleOpsIsLast<P>(ops: seq<Op<P>>, v: real)
    ensures var vs := ValuesOf(ops);
            SettleOps(ops, v) == if vs == [] then v else vs[|vs| - 1]
  {
    if ops != [] {
      var w := if ops[0].SetValue? then ops[0].value else v;
      SettleOpsIsLast(ops[1..], w);
      var head, rest := (if ops[0].SetValue? then [ops[0].value] else []), ValuesOf(ops[1..]);
      assert ValuesOf(ops) == head + rest;
      if rest != [] {
        assert (head + rest)[|head + rest| - 1] == rest[|rest| - 1];
      }
    }
  }

  /** Every part a scene-graph node holds, depth first. */
  function Leaves<P>(m: Mob<P>): seq<P>
  {
    match m
    case Part(p) => [p]
    case Group(ms) => LeavesAll(ms)
  }

  function LeavesAll<P>(ms: seq<Mob<P>>): seq<P>
  {
    if ms == [] then [] else Leaves(ms[0]) + LeavesAll(ms[1..])
  }

  /** The parts of a two-node list are those of the first node, then
      those of the second. */
  lemma LeavesPair<P>(a: Mob<P>, b: Mob<P>)
    ensures LeavesAll([a, b]) == Leaves(a) + Leaves(b)
  {
    assert [a, b][1..] == [b];
    assert [b][1..] == [];
    assert LeavesAll([b]) == Leaves(b) + LeavesAll([]);
  }

  /** `Succession(*[Write(piece, run_time=rt) for piece in pieces])`: one
      write per piece, in the order of the pieces. */
  function WriteEach<P>(pieces: seq<P>, rt: real): (a: Anim<P>)
    ensures a.Succession? && |a.items| == |pieces|
    ensures forall i :: 0 <= i < |pieces| ==> a.items[i] == Write([pieces[i]], rt)
  {
    Succession(seq(|pieces|, i requires 0 <= i < |pieces| => Write([pieces[i]], rt)))
  }

  /** Writing each piece once brings every piece on screen exactly once, in
      order, and takes one run time per piece. */
  lemma {:induction false} WriteEachIntroducesInOrder<P>(pieces: seq<P>, rt: real)
    ensures Introduced(WriteEach(pieces, rt)) == pieces
    ensures Duration(WriteEach(pieces, rt)) == |pieces| as real * rt
  {
    var items := WriteEach(pieces, rt).items;
    WriteAllIntroduces(pieces, items, rt);
  }

  lemma {:induction false} WriteAllIntroduces<P>(pieces: seq<P>, items: seq<Anim<P>>, rt: real)
    requires |items| == |pieces|
    requires forall i :: 0 <= i < |pieces| ==> items[i] == Write([pieces[i]], rt)
    ensures IntroducedAll(items) == pieces
    ensures DurationSum(items) == |pieces| as real * rt
  {
    if pieces != [] {
      WriteAllIntroduces(pieces[1..], items[1..], rt);
    }
  }

  /** One step in front of a list, unfolded. */
  lemma StepsCons<P>(a: Anim<P>, rest: seq<Anim<P>>, t: P)
    ensures IntroducedAll([a] + rest) == Introduced(a) + IntroducedAll(rest)
    ensures RemovedAll([a] + rest) == Removed(a) + RemovedAll(rest)
    ensures ScalingsAll([a] + rest) == Scalings(a) + ScalingsAll(rest)
    ensures PathMovesAll([a] + rest) == PathMoves(a) + PathMovesAll(rest)
    ensures TrackerTargetsAll([a] + rest, t) == TrackerTargets(a, t) + TrackerTargetsAll(rest, t)
    ensures TrackerStopsAll([a] + rest, t) == TrackerStops(a, t) + TrackerStopsAll(rest, t)
    ensures DurationSum([a] + rest) == Duration(a) + DurationSum(rest)
  {
    assert ([a] + rest)[1..] == rest;
  }

  /** A single `scale` step on several targets scales each of them by the
      factor, in order. */
  lemma ScaleEach<P>(ts: seq<P>, f: real)
    ensures ScalingsOf(ts, [ScaleBy(f)]) == seq(|ts|, i requires 0 <= i < |ts| => (ts[i], f))
  {
    var ops: seq<Op<P>> := [ScaleBy(f)];
    assert ops[1..] == [];
  }

  /** A step list of one: each summary is the step's own. */
  lemma Steps1<P>(a: Anim<P>, t: P)
    ensures IntroducedAll([a]) == Introduced(a)
    ensures RemovedAll([a]) == Removed(a)
    ensures ScalingsAll([a]) == Scalings(a)
    ensures PathMovesAll([a]) == PathMoves(a)
    ensures TrackerTargetsAll([a], t) == TrackerTargets(a, t)
    ensures TrackerStopsAll([a], t) == TrackerStops(a, t)
    ensures DurationSum([a]) == Duration(a)
  {
    assert [a][1..] == [];
    assert Introduced(a) + [] == Introduced(a);
    assert Removed(a) + [] == Removed(a);
    assert Scalings(a) + [] == Scalings(a);
    assert PathMoves(a) + [] == PathMoves(a);
    assert TrackerTargets(a, t) + [] == TrackerTargets(a, t);
    assert TrackerStops(a, t) + [] == TrackerStops(a, t);
  }

  /** A step list of two, unfolded: each summary is the first step's
      followed by the second's. */
  lemma Steps2<P>(a: Anim<P>, b: Anim<P>, t: P)
    ensures IntroducedAll([a, b]) == Introduced(a) + Introduced(b)
    ensures RemovedAll([a, b]) == Removed(a) + Removed(b)
    ensures ScalingsAll([a, b]) == Scalings(a) + Scalings(b)
    ensures PathMovesAll([a, b]) == PathMoves(a) + PathMoves(b)
    ensures TrackerTargetsAll([a, b], t) == TrackerTargets(a, t) + TrackerTargets(b, t)
    ensures TrackerStopsAll([a, b], t) == TrackerStops(a, t) + TrackerStops(b, t)
    ensures DurationSum([a, b]) == Duration(a) + Duration(b)
  {
    Steps1(b, t);
    StepsCons(a, [b], t);
    assert [a] + [b] == [a, b];
  }

  /** A step list of three, unfolded (right-nested). */
  lemma Steps3<P>(a: Anim<P>, b: Anim<P>, c: Anim<P>, t: P)
    ensures IntroducedAll([a, b, c])
            == Introduced(a) + (Introduced(b) + Introduced(c))
    ensures RemovedAll([a, b, c])
            == Removed(a) + (Removed(b) + Removed(c))
    ensures ScalingsAll([a, b, c])
            == Scalings(a) + (Scalings(b) + Scalings(c))
    ensures PathMovesAll([a, b, c])
            == PathMoves(a) + (PathMoves(b) + PathMoves(c))
    ensures TrackerTargetsAll([a, b, c], t)
            == TrackerTargets(a, t) + (TrackerTargets(b, t) + TrackerTargets(c, t))
    ensures TrackerStopsAll([a, b, c], t)
            == TrackerStops(a, t) + (TrackerStops(b, t) + TrackerStops(c, t))
    ensures DurationSum([a, b, c])
            == Duration(a) + (Duration(b) + Duration(c))
  {
    Steps2(b, c, t);
    assert [a] + [b, c] == [a, b, c];
    StepsCons(a, [b, c], t);
  }

  /**
   * A manim `ValueTracker`: a number that animations drive. Building an
   * animation never changes it; playing one leaves it where the animation's
   * last arriving `set_value` on it put it.
   */
  class ValueTracker<P(==)> {
    const tag: P
    var value: real

    constructor (tag: P, initial: real)
      ensures this.tag == tag && value == initial
    {
      this.tag := tag;
      value := initial;
    }

    /** The renderer plays `a`; only the tracker's value is observed. */
    method Play(a: Anim<P>)
      modifies this
      ensures value == Settle(a, tag, old(value))
    {
      value := Settle(a, tag, value);
    }
  }
}
