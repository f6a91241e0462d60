/** The frame tree: rectangles arranged in an append-only tree, each owning
    an input registry, and the depth-first, topmost-first input dispatch that
    stops at the first frame whose callback handles the event.

    A tree is described by the ghost set `U` of all its frames. `Valid(U)`
    is the invariant construction and `Append` keep: children belong to `U`
    and point back at their parent, no child is listed twice, no two frames
    share a registry, and the ghost depth of a frame (one more than its
    parent's) stays below `|U|`, which bounds every descent through the tree. */
module Frames {
  import opened Values
  import opened Input

  /** The result of a dispatch: whether some callback handled the event, and
      the frames whose registries were consulted, in the order consulted. */
  datatype Outcome = Outcome(consumed: bool, asked: seq<Frame>)

  /** Whether a frame with this rectangle considers the event for itself: an
      event without a position always, a positioned one when its point lies
      in the rectangle, edges included. */
  predicate NeedProcess(rect: Rect, param: OperationParam)
  {
    match param.position
    case None => true
    case Some(point) => rect.ContainsPoint(point)
  }

  lemma NeedProcessGate(rect: Rect, param: OperationParam)
    ensures param.position.None? ==> NeedProcess(rect, param)
    ensures param.position.Some? ==>
      (NeedProcess(rect, param) <==>
         && rect.Left() <= param.position.value.x <= rect.Right()
         && rect.Top() <= param.position.value.y <= rect.Bottom())
  {
  }

  ghost predicate Valid(U: set<Frame>)
    reads U
  {
    && (forall f :: f in U ==> f.depth < |U|)
    && (forall f :: f in U && f.parent != null ==> f.parent in U && f.depth == f.parent.depth + 1)
    && (forall f, i :: f in U && 0 <= i < |f.children| ==> f.children[i] in U && f.children[i].parent == f)
    && (forall f, i, j :: f in U && 0 <= i < j < |f.children| ==> f.children[i] != f.children[j])
    && (forall f, g :: f in U && g in U && f != g ==> f.input != g.input)
  }

  class Frame {
    const rect: Rect
    const parent: Frame?
    /** Insertion order is z-order: later children lie on top. */
    var children: seq<Frame>
    const input: InputEvent
    ghost const depth: nat

    /** Builds a frame with an empty registry and no children and, when a
        parent is given, appends the new frame to the parent's children. */
    constructor (rect: Rect, parent: Frame?, ghost U: set<Frame>)
      requires Valid(U)
      requires parent != null ==> parent in U
      modifies parent
      ensures this.rect == rect && this.parent == parent
      ensures children == [] && fresh(input) && input.callbacks == map[]
      ensures parent != null ==> parent.children == old(parent.children) + [this]
      ensures Valid(U + {this})
    {
      this.rect := rect;
      this.parent := parent;
      this.depth := if parent == null then 0 else parent.depth + 1;
      children := [];
      input := new InputEvent();
      new;
      assert this !in U;
      assert Valid(U + {this});
      if parent != null {
        var ok := parent.Append(this, U + {this});
      }
    }

    /** Adds `child` on top of the existing children. Fails (the source
        raises) when `child` is already one of them, and then changes nothing. */
    method Append(child: Frame, ghost U: set<Frame>) returns (ok: bool)
      requires Valid(U) && this in U && child in U
      requires child.parent == this
      modifies this
      ensures ok == (child !in old(children))
      ensures children == if ok then old(children) + [child] else old(children)
      ensures Valid(U)
    {
      if child in children {
        return false;
      }
      children := children + [child];
      ok := true;
    }

    method ConnectInput(code: VirtualKey, callback: Callback) returns (ok: bool)
      modifies input
      ensures ok == (code !in old(input.callbacks))
      ensures input.callbacks == if ok then old(input.callbacks)[code := callback] else old(input.callbacks)
    {
      ok := input.Connect(code, callback);
    }

    method DisconnectInput(code: VirtualKey) returns (ok: bool)
      modifies input
      ensures ok == (code in old(input.callbacks))
      ensures input.callbacks == old(input.callbacks) - {code}
    {
      ok := input.Disconnect(code);
    }

    /** Clears the whole registry; `code` is accepted and ignored. */
    method DisconnectInputAll(code: VirtualKey)
      modifies input
      ensures input.callbacks == map[]
      ensures forall param: OperationParam :: !input.Process(param)
    {
      input.DisconnectAll();
    }

    /** Dispatches `param` into the subtree rooted here: the children from
        the last added to the first, each recursively, stopping at the first
        that handles it; then, when the event concerns this frame, this
        frame's own registry. `asked` lists, in order, the frames whose
        registry was consulted. */
    method ProcessInput(param: OperationParam, ghost U: set<Frame>) returns (consumed: bool, ghost asked: seq<Frame>)
      requires Valid(U) && this in U
      ensures consumed == Run(U, this, param).consumed
      ensures Outcome(consumed, asked) == Run(U, this, param)
      decreases |U| - depth
    {
      asked := [];
      var i := |children|;
      while i > 0
        invariant 0 <= i <= |children|
        invariant RunRange(U, this, 0, |children|, param) ==
          Outcome(RunRange(U, this, 0, i, param).consumed, asked + RunRange(U, this, 0, i, param).asked)
      {
        i := i - 1;
        var child := children[i];
        var done;
        ghost var childAsked;
        done, childAsked := child.ProcessInput(param, U);
        ChildStep(U, this, i, param, Outcome(done, childAsked), asked);
        asked := asked + childAsked;
        if done {
          return true, asked;
        }
      }
      if !NeedProcess(rect, param) {
        return false, asked;
      }
      consumed := input.Process(param);
      asked := asked + [this];
    }
  }

  /** One step of the dispatch loop: the walk over all children, written as
      the trace `acc` so far followed by the walk over the first `i + 1`,
      ends once child `i` accepts and otherwise goes on with the first `i`. */
  lemma ChildStep(U: set<Frame>, f: Frame, i: nat, param: OperationParam, first: Outcome, acc: seq<Frame>)
    requires Valid(U) && f in U && i < |f.children|
    requires first == Run(U, f.children[i], param)
    requires RunRange(U, f, 0, |f.children|, param) ==
      Outcome(RunRange(U, f, 0, i + 1, param).consumed, acc + RunRange(U, f, 0, i + 1, param).asked)
    ensures first.consumed ==> RunRange(U, f, 0, |f.children|, param) == Outcome(true, acc + first.asked)
    ensures !first.consumed ==>
              RunRange(U, f, 0, |f.children|, param) ==
              Outcome(RunRange(U, f, 0, i, param).consumed, (acc + first.asked) + RunRange(U, f, 0, i, param).asked)
  {
    if !first.consumed {
      var rest := RunRange(U, f, 0, i, param);
      assert acc + (first.asked + rest.asked) == (acc + first.asked) + rest.asked;
    }
  }

  /** The dispatch of `param` into the subtree rooted at `f`. */
  ghost function Run(U: set<Frame>, f: Frame, param: OperationParam): Outcome
    requires Valid(U) && f in U
    reads U, set f | f in U :: f.input
    decreases |U| - f.depth, 1, 0
  {
    var kids := RunRange(U, f, 0, |f.children|, param);
    if kids.consumed then kids
    else if !NeedProcess(f.rect, param) then kids
    else Outcome(f.input.Process(param), kids.asked + [f])
  }

  /** The dispatch of `param` into the children of `f` with indices in
      [lo, hi), from index hi - 1 down to lo, stopping at the first that
      handles it. */
  ghost function RunRange(U: set<Frame>, f: Frame, lo: nat, hi: nat, param: OperationParam): Outcome
    requires Valid(U) && f in U && lo <= hi <= |f.children|
    reads U, set f | f in U :: f.input
    decreases |U| - f.depth, 0, hi
  {
    if hi == lo then Outcome(false, [])
    else
      var first := Run(U, f.children[hi - 1], param);
      if first.consumed then first
      else
        var rest := RunRange(U, f, lo, hi - 1, param);
        Outcome(rest.consumed, first.asked + rest.asked)
  }

  /** A walk over the children consumed the event exactly when one of the
      children it tried consumed it. */
  lemma {:induction false} RangeConsumedIffSomeChild(U: set<Frame>, f: Frame, lo: nat, hi: nat, param: OperationParam)
    requires Valid(U) && f in U && lo <= hi <= |f.children|
    ensures RunRange(U, f, lo, hi, param).consumed <==>
      exists k :: lo <= k < hi && Run(U, f.children[k], param).consumed
    decreases hi
  {
    if hi > lo {
      RangeConsumedIffSomeChild(U, f, lo, hi - 1, param);
    }
  }

  /** Every consulted frame lies in the subtree and concerns the event
      (no position, or a position inside its rectangle); every consulted
      frame but the last declined the event; and the walk consumed the event
      exactly when the last consulted frame's callback handled it. So the
      dispatch stops at the first frame, anywhere in the tree, whose callback
      answers true, and invokes no registry after it. */
  lemma {:induction false} RunStopsAtFirstAccept(U: set<Frame>, f: Frame, param: OperationParam)
    requires Valid(U) && f in U
    ensures StopsAtFirstAccept(U, Run(U, f, param), f.depth, param)
    decreases |U| - f.depth, 1, 0
  {
    RangeStopsAtFirstAccept(U, f, 0, |f.children|, param);
  }

  lemma {:induction false} RangeStopsAtFirstAccept(U: set<Frame>, f: Frame, lo: nat, hi: nat, param: OperationParam)
    requires Valid(U) && f in U && lo <= hi <= |f.children|
    ensures StopsAtFirstAccept(U, RunRange(U, f, lo, hi, param), f.depth + 1, param)
    decreases |U| - f.depth, 0, hi
  {
    if hi > lo {
      var child := f.children[hi - 1];
      RunStopsAtFirstAccept(U, child, param);
      var first := Run(U, child, param);
      if !first.consumed {
        RangeStopsAtFirstAccept(U, f, lo, hi - 1, param);
      }
      DeclinedThenStops(U, first, RunRange(U, f, lo, hi - 1, param), RunRange(U, f, lo, hi, param), f.depth + 1, param);
    }
  }

  /** One step of a walk: a first attempt that stops at its first accepting
      frame, followed when it declined by a walk that does the same, is again
      a walk that stops at its first accepting frame. */
  lemma DeclinedThenStops(U: set<Frame>, first: Outcome, rest: Outcome, walk: Outcome, depth: nat, param: OperationParam)
    requires StopsAtFirstAccept(U, first, depth, param)
    requires !first.consumed ==> StopsAtFirstAccept(U, rest, depth, param)
    requires walk == if first.consumed then first else Outcome(rest.consumed, first.asked + rest.asked)
    ensures StopsAtFirstAccept(U, walk, depth, param)
  {
    if !first.consumed {
      var all := first.asked + rest.asked;
      forall i | 0 <= i < |all| - 1
        ensures !all[i].input.Process(param)
      {
        if i >= |first.asked| {
          assert all[i] == rest.asked[i - |first.asked|];
        }
      }
      if rest.asked != [] {
        assert all[|all| - 1] == rest.asked[|rest.asked| - 1];
      }
    }
  }

  /** What RunStopsAtFirstAccept promises of an outcome: the consulted frames
      belong to the tree, have at least depth `depth` and concern the event;
      all but the last declined; and the outcome is "consumed" exactly when
      the last one handled the event. */
  ghost predicate StopsAtFirstAccept(U: set<Frame>, o: Outcome, depth: nat, param: OperationParam)
    reads U, set f | f in U :: f.input
  {
    && (forall g :: g in o.asked ==> g in U && g.depth >= depth && NeedProcess(g.rect, param))
    && (forall i :: 0 <= i < |o.asked| - 1 ==> !o.asked[i].input.Process(param))
    && (o.consumed <==> o.asked != [] && o.asked[|o.asked| - 1].input.Process(param))
  }

  /** `g` lies in the subtree rooted at `f`: following parent links from
      `g` reaches `f`. */
  ghost predicate Under(U: set<Frame>, g: Frame, f: Frame)
    requires Valid(U) && g in U
    reads U
    decreases g.depth
  {
    g == f || (g.parent != null && Under(U, g.parent, f))
  }

  /** A frame under a child is under the child's parent. */
  lemma {:induction false} UnderParent(U: set<Frame>, g: Frame, c: Frame, f: Frame)
    requires Valid(U) && g in U && c in U && c.parent == f && Under(U, g, c)
    ensures Under(U, g, f)
    decreases g.depth
  {
    if g != c {
      UnderParent(U, g.parent, c, f);
    }
  }

  /** Dispatch never leaves the subtree: every frame whose registry the
      dispatch from `f` consults lies under `f`. */
  lemma {:induction false} RunAsksOnlySubtree(U: set<Frame>, f: Frame, param: OperationParam)
    requires Valid(U) && f in U
    ensures forall g :: g in Run(U, f, param).asked ==> g in U && Under(U, g, f)
    decreases |U| - f.depth, 1, 0
  {
    RangeAsksOnlySubtree(U, f, 0, |f.children|, param);
  }

  lemma {:induction false} RangeAsksOnlySubtree(U: set<Frame>, f: Frame, lo: nat, hi: nat, param: OperationParam)
    requires Valid(U) && f in U && lo <= hi <= |f.children|
    ensures forall g :: g in RunRange(U, f, lo, hi, param).asked ==> g in U && Under(U, g, f)
    decreases |U| - f.depth, 0, hi
  {
    if hi > lo {
      var child := f.children[hi - 1];
      RunAsksOnlySubtree(U, child, param);
      forall g | g in Run(U, child, param).asked
        ensures Under(U, g, f)
      {
        UnderParent(U, g, child, f);
      }
      RangeAsksOnlySubtree(U, f, lo, hi - 1, param);
    }
  }

  /** When child `j` consumes the event and no child added after it does,
      the dispatch consumes the event; it consults the later children's
      subtrees, topmost first, then child `j`'s subtree, and nothing else:
      neither an earlier sibling nor the frame's own registry. */
  lemma {:induction false} FirstConsumerWins(U: set<Frame>, f: Frame, j: nat, param: OperationParam)
    requires Valid(U) && f in U && j < |f.children|
    requires Run(U, f.children[j], param).consumed
    requires forall k :: j < k < |f.children| ==> !Run(U, f.children[k], param).consumed
    ensures !RunRange(U, f, j + 1, |f.children|, param).consumed
    ensures Run(U, f, param) ==
      Outcome(true, RunRange(U, f, j + 1, |f.children|, param).asked + Run(U, f.children[j], param).asked)
    ensures f !in Run(U, f, param).asked
  {
    RangeThroughConsumer(U, f, j, |f.children|, param);
    RangeStopsAtFirstAccept(U, f, j + 1, |f.children|, param);
    RunStopsAtFirstAccept(U, f.children[j], param);
  }

  lemma {:induction false} RangeThroughConsumer(U: set<Frame>, f: Frame, j: nat, hi: nat, param: OperationParam)
    requires Valid(U) && f in U && j < hi <= |f.children|
    requires Run(U, f.children[j], param).consumed
    requires forall k :: j < k < hi ==> !Run(U, f.children[k], param).consumed
    ensures !RunRange(U, f, j + 1, hi, param).consumed
    ensures RunRange(U, f, 0, hi, param) ==
      Outcome(true, RunRange(U, f, j + 1, hi, param).asked + Run(U, f.children[j], param).asked)
    decreases hi
  {
    if hi > j + 1 {
      RangeThroughConsumer(U, f, j, hi - 1, param);
      var top := Run(U, f.children[hi - 1], param).asked;
      var between := RunRange(U, f, j + 1, hi - 1, param).asked;
      var hit := Run(U, f.children[j], param).asked;
      assert top + (between + hit) == (top + between) + hit;
    }
  }

  /** Z-order: when the last-added child consumes the event, the dispatch is
      exactly that child's dispatch. */
  lemma TopmostChildWins(U: set<Frame>, f: Frame, param: OperationParam)
    requires Valid(U) && f in U && f.children != []
    requires Run(U, f.children[|f.children| - 1], param).consumed
    ensures Run(U, f, param) == Run(U, f.children[|f.children| - 1], param)
  {
    FirstConsumerWins(U, f, |f.children| - 1, param);
  }

  /** Geometry gate: when no child consumes a positioned event whose point
      lies outside the frame's rectangle, the dispatch fails without
      consulting the frame's own registry. */
  lemma OutsideRectNotAsked(U: set<Frame>, f: Frame, param: OperationParam)
    requires Valid(U) && f in U
    requires forall k :: 0 <= k < |f.children| ==> !Run(U, f.children[k], param).consumed
    requires param.position.Some? && !f.rect.ContainsPoint(param.position.value)
    ensures !Run(U, f, param).consumed
    ensures Run(U, f, param).asked == RunRange(U, f, 0, |f.children|, param).asked
    ensures f !in Run(U, f, param).asked
  {
    RangeConsumedIffSomeChild(U, f, 0, |f.children|, param);
    RangeStopsAtFirstAccept(U, f, 0, |f.children|, param);
  }

  /** When no child consumes and the event concerns the frame, the verdict
      is the frame's own registry's, consulted last. */
  lemma SelfDispatchWhenEligible(U: set<Frame>, f: Frame, param: OperationParam)
    requires Valid(U) && f in U
    requires forall k :: 0 <= k < |f.children| ==> !Run(U, f.children[k], param).consumed
    requires NeedProcess(f.rect, param)
    ensures Run(U, f, param).consumed == f.input.Process(param)
    ensures Run(U, f, param).asked == RunRange(U, f, 0, |f.children|, param).asked + [f]
  {
    RangeConsumedIffSomeChild(U, f, 0, |f.children|, param);
  }

  /** An event without a position concerns every frame, whatever its
      rectangle: a child whose registry handles the key consumes the event
      for the whole tree when no child above it and none of its own children
      does. */
  lemma UnpositionedEventReachesChild(U: set<Frame>, f: Frame, j: nat, param: OperationParam)
    requires Valid(U) && f in U && j < |f.children|
    requires param.position.None?
    requires forall k :: j < k < |f.children| ==> !Run(U, f.children[k], param).consumed
    requires forall k :: 0 <= k < |f.children[j].children| ==> !Run(U, f.children[j].children[k], param).consumed
    requires f.children[j].input.Process(param)
    ensures Run(U, f.children[j], param).consumed
    ensures Run(U, f, param).consumed
  {
    SelfDispatchWhenEligible(U, f.children[j], param);
    FirstConsumerWins(U, f, j, param);
  }

  /** A child's hit area is not clipped to its parent's rectangle: a child
      that consumes a positioned event makes the parent's dispatch consume it
      even when the point lies outside the parent's rectangle. */
  lemma ChildHitAreaNotClipped(U: set<Frame>, f: Frame, j: nat, param: OperationParam)
    requires Valid(U) && f in U && j < |f.children|
    requires param.position.Some? && !f.rect.ContainsPoint(param.position.value)
    requires f.children[j].rect.ContainsPoint(param.position.value)
    requires forall k :: j < k < |f.children| ==> !Run(U, f.children[k], param).consumed
    requires forall k :: 0 <= k < |f.children[j].children| ==> !Run(U, f.children[j].children[k], param).consumed
    requires f.children[j].input.Process(param)
    ensures Run(U, f, param).consumed
  {
    SelfDispatchWhenEligible(U, f.children[j], param);
    FirstConsumerWins(U, f, j, param);
  }

  /** A frame (10, 20, 30, 40) listening to the left button accepts a press
      at (11, 21) and does not see one at (9, 19). */
  method SingleFrameScenario() returns (inside: bool, outside: bool)
    ensures inside && !outside
  {
    var frame := new Frame(Rect(Position(10.0, 20.0), Size(30.0, 40.0)), null, {});
    ghost var U := {frame};
    var ok := frame.ConnectInput(MouseLeft, (p: OperationParam) => true);
    var press := OperationParam(MouseLeft, Press, Some(Position(11.0, 21.0)));
    SelfDispatchWhenEligible(U, frame, press);
    ghost var asked;
    inside, asked := frame.ProcessInput(press, U);
    var miss := OperationParam(MouseLeft, Press, Some(Position(9.0, 19.0)));
    OutsideRectNotAsked(U, frame, miss);
    outside, asked := frame.ProcessInput(miss, U);
  }

  /** A frame given as parent lists the new frame as its first child, and an
      unpositioned middle press given to the parent is handled by the child
      that listens to the middle button. */
  method ParentAndChildScenario() returns (viaChild: bool)
    ensures viaChild
  {
    var parent := new Frame(Rect(Position(10.0, 20.0), Size(30.0, 40.0)), null, {});
    var child := new Frame(Rect(Position(30.0, 40.0), Size(50.0, 60.0)), parent, {parent});
    ghost var U := {parent} + {child};
    assert Valid(U) && parent.children == [child] && child.children == [];
    var ok := child.ConnectInput(MouseMiddle, (p: OperationParam) => true);
    assert Valid(U) && parent.children == [child] && child.children == [];
    var param := OperationParam(MouseMiddle, Press);
    assert child.input.Process(param);
    UnpositionedEventReachesChild(U, parent, 0, param);
    ghost var asked;
    viaChild, asked := parent.ProcessInput(param, U);
  }
}
