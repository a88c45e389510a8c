/**
  The animation pass over the scene graph
  (`cga.framework.scenegraph.visitor.AnimationVisitor`): visiting a node
  advances, in the order of the node's geometry list, the animation of every
  shape that has one. An animation is abstracted as a step counter, a shape
  as the holder of an optional animation, a node as its geometry and its
  children.
 */
module AnimationVisitor {

  /** Stand-in for the framework's `Animation`: `animate()` advances it by one step. */
  class Animation {
    var steps: nat

    constructor ()
      ensures steps == 0
    {
      steps := 0;
    }

    /** Advances by one step and records the call in `log`. */
    method Animate(log: CallLog)
      modifies this, log
      ensures steps == old(steps) + 1
      ensures log.trace == old(log.trace) + [this]
    {
      steps := steps + 1;
      log.trace := log.trace + [this];
    }
  }

  /** The `animate()` calls made so far, in the order they were made: an observer, not part of the framework. */
  class CallLog {
    ghost var trace: seq<Animation>

    constructor ()
      ensures trace == []
    {
      trace := [];
    }
  }

  /**
    Stand-in for the framework's `Shape`: only its optional animation matters
    here, and a visit never replaces it, so it is fixed at construction.
   */
  class Shape {
    const animation: Animation?

    constructor (animation: Animation?)
      ensures this.animation == animation
    {
      this.animation := animation;
    }
  }

  /** Stand-in for the framework's scene-graph `Node`. */
  class Node {
    var geometry: seq<Shape>
    var children: seq<Node>

    constructor (geometry: seq<Shape>, children: seq<Node>)
      ensures this.geometry == geometry && this.children == children
    {
      this.geometry := geometry;
      this.children := children;
    }
  }

  /** The calls a single shape contributes: its animation, if it has one. */
  function Own(shape: Shape): (calls: seq<Animation>)
    ensures |calls| <= 1
  {
    if shape.animation != null then [shape.animation] else []
  }

  /** The `animate()` calls a visit of `geometry` makes, in the order it makes them. */
  function Schedule(geometry: seq<Shape>): (calls: seq<Animation>)
    ensures |calls| <= |geometry|
  {
    if |geometry| == 0 then []
    else
      var last := geometry[|geometry| - 1];
      Schedule(geometry[..|geometry| - 1]) + (if last.animation != null then [last.animation] else [])
  }

  /** The animations held by shapes of `geometry`: the objects a visit may change. */
  function Animated(geometry: seq<Shape>): set<Animation>
  {
    set s | s in geometry && s.animation != null :: s.animation
  }

  /** How many `animate()` calls a visit makes before it reaches shape `i`. */
  function Rank(geometry: seq<Shape>, i: nat): nat
    requires i <= |geometry|
  {
    |Schedule(geometry[..i])|
  }

  /** The calls for a concatenation are the calls for each part, one after the other. */
  lemma {:induction false} ScheduleAppend(g: seq<Shape>, h: seq<Shape>)
    ensures Schedule(g + h) == Schedule(g) + Schedule(h)
    decreases |h|
  {
    if |h| == 0 {
      assert g + h == g;
    } else {
      var h' := h[..|h| - 1];
      assert (g + h)[..|g + h| - 1] == g + h';
      assert (g + h)[|g + h| - 1] == h[|h| - 1];
      assert h[..|h| - 1] == h';
      ScheduleAppend(g, h');
    }
  }

  /** One more shape adds its animation, if it has one, at the end of the calls. */
  lemma ScheduleStep(g: seq<Shape>, i: nat)
    requires i < |g|
    ensures Schedule(g[..i + 1])
         == Schedule(g[..i]) + Own(g[i])
  {
    assert g[..i + 1][..i] == g[..i];
  }

  /**
    Exactly once and in list order: the shape at position `i`, when it has an
    animation, is the one the call numbered `Rank(geometry, i)` advances.
   */
  lemma {:induction false} ScheduleAt(geometry: seq<Shape>, i: nat)
    requires i < |geometry| && geometry[i].animation != null
    ensures Rank(geometry, i) < |Schedule(geometry)|
    ensures Schedule(geometry)[Rank(geometry, i)] == geometry[i].animation
  {
    var g := geometry;
    assert g == g[..i] + ([g[i]] + g[i + 1..]);
    ScheduleAppend(g[..i], [g[i]] + g[i + 1..]);
    ScheduleAppend([g[i]], g[i + 1..]);
    assert [g[i]][..0] == [];
  }

  /** Calls are numbered in the order of the shapes: a later shape is reached after every call of an earlier one. */
  lemma {:induction false} RankOrdered(geometry: seq<Shape>, i: nat, j: nat)
    requires i < j <= |geometry| && geometry[i].animation != null
    ensures Rank(geometry, i) < Rank(geometry, j)
  {
    var g := geometry[..j];
    assert g[..i] == geometry[..i];
    assert g[..j] == geometry[..j];
    ScheduleAt(g, i);
  }

  /** No call is made but for a shape: every call belongs to a shape with an animation. */
  lemma {:induction false} ScheduleCovered(geometry: seq<Shape>, k: nat)
    requires k < |Schedule(geometry)|
    ensures exists i :: 0 <= i < |geometry| && geometry[i].animation != null && Rank(geometry, i) == k
    decreases |geometry|
  {
    var n := |geometry| - 1;
    var front := geometry[..n];
    assert Schedule(geometry) == Schedule(front)
         + Own(geometry[n]);
    if k < |Schedule(front)| {
      ScheduleCovered(front, k);
      var i :| 0 <= i < |front| && front[i].animation != null && Rank(front, i) == k;
      assert front[..i] == geometry[..i];
    } else {
      assert geometry[n].animation != null && Rank(geometry, n) == k;
    }
  }

  /** The animations advanced are exactly those the shapes hold. */
  lemma {:induction false} ScheduleAnimated(geometry: seq<Shape>, a: Animation)
    ensures a in Schedule(geometry) <==> a in Animated(geometry)
  {
    if a in Schedule(geometry) {
      var k :| 0 <= k < |Schedule(geometry)| && Schedule(geometry)[k] == a;
      ScheduleCovered(geometry, k);
      var i :| 0 <= i < |geometry| && geometry[i].animation != null && Rank(geometry, i) == k;
      ScheduleAt(geometry, i);
      assert geometry[i] in geometry;
    }
    if a in Animated(geometry) {
      var s :| s in geometry && s.animation == a;
      var i :| 0 <= i < |geometry| && geometry[i] == s;
      ScheduleAt(geometry, i);
    }
  }

  /** The positions of `geometry` whose shape holds `a`. */
  function Holders(geometry: seq<Shape>, a: Animation): set<int> {
    set i | 0 <= i < |geometry| && geometry[i].animation == a
  }

  /** The holders of a non-empty list are those of its front plus, perhaps, its last position. */
  lemma HoldersStep(geometry: seq<Shape>, a: Animation)
    requires |geometry| > 0
    ensures var n := |geometry| - 1;
      |Holders(geometry, a)| == |Holders(geometry[..n], a)| + (if geometry[n].animation == a then 1 else 0)
  {
    var n := |geometry| - 1;
    var front := geometry[..n];
    var last: set<int> := if geometry[n].animation == a then {n} else {};
    assert Holders(geometry, a) == Holders(front, a) + last by {
      forall i | 0 <= i < n
        ensures front[i] == geometry[i]
      {
      }
    }
    assert Holders(front, a) !! last;
  }

  /** One more shape of the list adds its own position to the holders of its animation, and to no other's. */
  lemma PrefixHoldersStep(geometry: seq<Shape>, i: nat)
    requires i < |geometry|
    ensures forall a: Animation :: |Holders(geometry[..i + 1], a)|
              == |Holders(geometry[..i], a)| + (if geometry[i].animation == a then 1 else 0)
  {
    assert geometry[..i + 1][..i] == geometry[..i];
    forall a: Animation
      ensures |Holders(geometry[..i + 1], a)| == |Holders(geometry[..i], a)| + (if geometry[i].animation == a then 1 else 0)
    {
      HoldersStep(geometry[..i + 1], a);
    }
  }

  /** The calls advance each animation once per shape holding it. */
  lemma {:induction false} ScheduleCountsHolders(geometry: seq<Shape>, a: Animation)
    ensures multiset(Schedule(geometry))[a] == |Holders(geometry, a)|
    decreases |geometry|
  {
    if |geometry| == 0 {
      assert Holders(geometry, a) == {};
    } else {
      var n := |geometry| - 1;
      var front := geometry[..n];
      var tail: seq<Animation> := Own(geometry[n]);
      assert multiset(Schedule(geometry)) == multiset(Schedule(front)) + multiset(tail);
      assert multiset(tail)[a] == (if geometry[n].animation == a then 1 else 0);
      ScheduleCountsHolders(front, a);
      HoldersStep(geometry, a);
    }
  }

  lemma ScheduleCountsAllHolders(geometry: seq<Shape>)
    ensures forall a: Animation :: multiset(Schedule(geometry))[a] == |Holders(geometry, a)|
  {
    forall a: Animation
      ensures multiset(Schedule(geometry))[a] == |Holders(geometry, a)|
    {
      ScheduleCountsHolders(geometry, a);
    }
  }

  /**
    `visit(node)`: the node's own geometry is walked in order and every shape
    with an animation has it advanced once, so an animation gains one step per
    shape holding it. `log` records each `animate()` call as it is made, and
    `calls` names what a visit appends to it. Nothing else changes: not the geometry, not the shapes, not the
    animations reachable only through child nodes.
   */
  method Visit(node: Node, log: CallLog) returns (ghost calls: seq<Animation>)
    modifies Animated(node.geometry), log
    ensures node.geometry == old(node.geometry)
    ensures calls == Schedule(node.geometry)
    ensures log.trace == old(log.trace) + calls
    ensures forall a :: a in Animated(node.geometry) ==>
              a.steps == old(a.steps) + multiset(calls)[a]
    ensures forall a :: a in Animated(node.geometry) ==>
              a.steps == old(a.steps) + |Holders(node.geometry, a)|
  {
    AnimateEach(node.geometry, log);
    calls := Schedule(node.geometry);
    ScheduleCountsAllHolders(node.geometry);
  }

  /** The body of the loop of `visit`: `animate()` on the shape's animation, if it has one. */
  method AnimateShape(shape: Shape, log: CallLog)
    modifies shape.animation, log
    ensures log.trace == old(log.trace) + Own(shape)
    ensures shape.animation != null ==> shape.animation.steps == old(shape.animation.steps) + 1
  {
    if shape.animation != null {
      shape.animation.Animate(log);
    }
  }

  /** The loop of `visit`: `animate()` on the animation of each shape of `geometry` that has one, in list order. */
  method AnimateEach(geometry: seq<Shape>, log: CallLog)
    modifies Animated(geometry), log
    ensures log.trace == old(log.trace) + Schedule(geometry)
    ensures forall a :: a in Animated(geometry) ==> a.steps == old(a.steps) + |Holders(geometry, a)|
  {
    ghost var animated := Animated(geometry);
    for i := 0 to |geometry|
      invariant log.trace == old(log.trace) + Schedule(geometry[..i])
      invariant forall a :: a in animated ==>
                  a.steps == old(a.steps) + |Holders(geometry[..i], a)|
    {
      ScheduleStep(geometry, i);
      PrefixHoldersStep(geometry, i);
      if geometry[i].animation != null {
        assert geometry[i].animation in animated by {
          assert geometry[i] in geometry;
        }
      }
      AnimateShape(geometry[i], log);
    }
    assert geometry[..|geometry|] == geometry;
  }

  /**
    One animation shared by two shapes advances twice in one visit, and the
    calls come in list order; a shape without one is skipped.
   */
  method SharedAnimationScenario() returns (shared: Animation, other: Animation, log: CallLog)
    ensures shared.steps == 2 && other.steps == 1
    ensures log.trace == [shared, other, shared]
  {
    shared := new Animation();
    other := new Animation();
    var a := new Shape(shared);
    var b := new Shape(null);
    var c := new Shape(other);
    var d := new Shape(shared);
    var node := new Node([a, b, c, d], []);
    assert Schedule([a, b, c, d]) == [shared, other, shared] by {
      assert [a][..0] == [];
      assert Schedule([a]) == [shared];
      assert [a, b][..1] == [a];
      assert Schedule([a, b]) == [shared];
      assert [a, b, c][..2] == [a, b];
      assert Schedule([a, b, c]) == [shared, other];
      assert [a, b, c, d][..3] == [a, b, c];
    }
    assert shared in Animated(node.geometry) && other in Animated(node.geometry) by {
      assert a in node.geometry && c in node.geometry;
    }
    log := new CallLog();
    ghost var calls := Visit(node, log);
  }

  /** A visit does not descend: the animation of a child's shape is left alone, and so is an empty node. */
  method NoDescentScenario() returns (childAnimation: Animation)
    ensures childAnimation.steps == 0
  {
    childAnimation := new Animation();
    var shape := new Shape(childAnimation);
    var child := new Node([shape], []);
    var parent := new Node([], [child]);
    var log := new CallLog();
    ghost var calls := Visit(parent, log);
  }
}
