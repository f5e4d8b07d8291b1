/**
 * The scroll hooks: the in-view options of the scroll-triggered animation,
 * the page's scroll progress, the last scroll direction, and the target of a
 * smooth scroll to an element.
 *
 * Scroll positions and heights are JavaScript numbers; they are modelled as
 * `real`, which is exact where the browser's doubles round.
 */
module Scroll {
  import opened JsSemantics

  // useScrollAnimation

  /** The hook's optional argument; every field may be left out. */
  datatype AnimationOptions = AnimationOptions(threshold: Option<real>, once: Option<bool>, margin: Option<string>)

  /** What the hook hands to the in-view detector. */
  datatype InViewOptions = InViewOptions(once: bool, amount: real, margin: string)

  const DefaultOnce := true
  const DefaultAmount := 0.2
  const DefaultMargin := "0px 0px -100px 0px"

  /** `options?.x ?? default` for one field. */
  function Field<T>(options: Option<AnimationOptions>, pick: AnimationOptions -> Option<T>, default: T): T
  {
    if options.Some? then Coalesce(pick(options.value), default) else default
  }

  /**
   * The in-view settings: each supplied field is kept as given, even `false`,
   * `0` or `""`, and only a missing field, or a missing argument, takes the
   * default.
   */
  function InViewSettings(options: Option<AnimationOptions>): (s: InViewOptions)
    ensures options.Some? && options.value.once.Some? ==> s.once == options.value.once.value
    ensures options.Some? && options.value.threshold.Some? ==> s.amount == options.value.threshold.value
    ensures options.Some? && options.value.margin.Some? ==> s.margin == options.value.margin.value
    ensures (options.None? || options.value.once.None?) ==> s.once == DefaultOnce
    ensures (options.None? || options.value.threshold.None?) ==> s.amount == DefaultAmount
    ensures (options.None? || options.value.margin.None?) ==> s.margin == DefaultMargin
  {
    InViewOptions(Field(options, (o: AnimationOptions) => o.once, DefaultOnce),
                  Field(options, (o: AnimationOptions) => o.threshold, DefaultAmount),
                  Field(options, (o: AnimationOptions) => o.margin, DefaultMargin))
  }

  /** No argument and an empty argument give the same defaults. */
  lemma AnimationDefaults()
    ensures InViewSettings(None) == InViewOptions(true, 0.2, "0px 0px -100px 0px")
    ensures InViewSettings(Some(AnimationOptions(None, None, None))) == InViewSettings(None)
  {
  }

  /** Falsy values are options too: `once: false`, `threshold: 0` and `margin: ""` survive. */
  lemma FalsyOptionsKept()
    ensures InViewSettings(Some(AnimationOptions(Some(0.0), Some(false), Some("")))) == InViewOptions(false, 0.0, "")
  {
  }

  // useScrollProgress

  /** `Math.min(Math.max(x, 0), 1)`. */
  function Clamp(x: real): (c: real)
    ensures 0.0 <= c <= 1.0
    ensures 0.0 <= x <= 1.0 ==> c == x
    ensures x < 0.0 ==> c == 0.0
    ensures x > 1.0 ==> c == 1.0
  {
    var low := if x > 0.0 then x else 0.0;
    if low < 1.0 then low else 1.0
  }

  /**
   * The progress after a scroll event: how far down the scrollable part of
   * the document the window is, as a fraction between 0 and 1; a document
   * that does not scroll has progress 0.
   */
  function ProgressOf(documentHeight: real, innerHeight: real, scrollY: real): (p: real)
    ensures 0.0 <= p <= 1.0
    ensures documentHeight - innerHeight <= 0.0 ==> p == 0.0
    ensures documentHeight - innerHeight > 0.0 && 0.0 <= scrollY <= documentHeight - innerHeight ==>
              p * (documentHeight - innerHeight) == scrollY
    ensures documentHeight - innerHeight > 0.0 && scrollY >= documentHeight - innerHeight ==> p == 1.0
    ensures scrollY <= 0.0 ==> p == 0.0
  {
    var scrollHeight := documentHeight - innerHeight;
    var progress := if scrollHeight > 0.0 then scrollY / scrollHeight else 0.0;
    if scrollHeight > 0.0 then DivisionBounds(scrollY, scrollHeight); Clamp(progress)
    else Clamp(progress)
  }

  /** Dividing by a positive height: the fraction times the height is the position, and it lies in [0, 1] iff the position lies in [0, height]. */
  lemma DivisionBounds(y: real, h: real)
    requires h > 0.0
    ensures (y / h) * h == y
    ensures 0.0 <= y ==> 0.0 <= y / h
    ensures y <= 0.0 ==> y / h <= 0.0
    ensures y <= h ==> y / h <= 1.0
    ensures y >= h ==> y / h >= 1.0
  {
  }

  /** Scrolling further down never lowers the progress. */
  lemma ProgressMonotone(documentHeight: real, innerHeight: real, y1: real, y2: real)
    requires y1 <= y2
    ensures ProgressOf(documentHeight, innerHeight, y1) <= ProgressOf(documentHeight, innerHeight, y2)
  {
    var h := documentHeight - innerHeight;
    if h > 0.0 {
      DivisionBounds(y2 - y1, h);
      assert y2 / h - y1 / h == (y2 - y1) / h;
    }
  }

  /** The hook's `progress` state. */
  class ScrollProgress {
    var progress: real

    /** Mounting starts from 0 and then runs the handler once for the current position. */
    constructor Mount(documentHeight: real, innerHeight: real, scrollY: real)
      ensures progress == ProgressOf(documentHeight, innerHeight, scrollY)
      ensures 0.0 <= progress <= 1.0
    {
      progress := 0.0;
      progress := ProgressOf(documentHeight, innerHeight, scrollY);
    }

    /** The scroll listener. */
    method HandleScroll(documentHeight: real, innerHeight: real, scrollY: real)
      modifies this
      ensures progress == ProgressOf(documentHeight, innerHeight, scrollY)
      ensures 0.0 <= progress <= 1.0
    {
      progress := ProgressOf(documentHeight, innerHeight, scrollY);
    }
  }

  // useScrollDirection

  datatype Direction = Up | Down

  /** The hook's two pieces of state. */
  datatype DirectionState = DirectionState(direction: Option<Direction>, lastScrollY: real)

  const InitialDirection := DirectionState(None, 0.0)

  /** One scroll event at position `current`. */
  function Step(s: DirectionState, current: real): (t: DirectionState)
    ensures t.lastScrollY == current
    ensures current > s.lastScrollY ==> t.direction == Some(Down)
    ensures current < s.lastScrollY ==> t.direction == Some(Up)
    ensures current == s.lastScrollY ==> t.direction == s.direction
  {
    if current > s.lastScrollY then DirectionState(Some(Down), current)
    else if current < s.lastScrollY then DirectionState(Some(Up), current)
    else DirectionState(s.direction, current)
  }

  /** A run of scroll events, in order. */
  function Replay(s: DirectionState, positions: seq<real>): DirectionState
    decreases |positions|
  {
    if positions == [] then s else Replay(Step(s, positions[0]), positions[1..])
  }

  /** Where the window was after the events, or `start` before any. */
  function LastPosition(start: real, positions: seq<real>): real
  {
    if positions == [] then start else positions[|positions| - 1]
  }

  /** The direction of the last event that moved the window, looking back from the end. */
  function LastMove(start: real, positions: seq<real>): Option<Direction>
    decreases |positions|
  {
    if positions == [] then None
    else
      var before := LastPosition(start, positions[..|positions| - 1]);
      var now := positions[|positions| - 1];
      if now > before then Some(Down)
      else if now < before then Some(Up)
      else LastMove(start, positions[..|positions| - 1])
  }

  lemma {:induction false} ReplaySnoc(s: DirectionState, positions: seq<real>, x: real)
    ensures Replay(s, positions + [x]) == Step(Replay(s, positions), x)
    decreases |positions|
  {
    if positions == [] {
      assert positions + [x] == [x];
      assert [x][1..] == [];
    } else {
      assert (positions + [x])[1..] == positions[1..] + [x];
      ReplaySnoc(Step(s, positions[0]), positions[1..], x);
    }
  }

  /**
   * After any run of events the hook remembers the last position, and its
   * direction is that of the last event that moved the window; events that
   * leave the position where it was change nothing.
   */
  lemma {:induction false} ReplayFollowsLastMove(s: DirectionState, positions: seq<real>)
    ensures Replay(s, positions).lastScrollY == LastPosition(s.lastScrollY, positions)
    ensures Replay(s, positions).direction ==
              match LastMove(s.lastScrollY, positions) case Some(d) => Some(d) case None => s.direction
    decreases |positions|
  {
    if positions != [] {
      var front, x := positions[..|positions| - 1], positions[|positions| - 1];
      assert positions == front + [x];
      ReplaySnoc(s, front, x);
      ReplayFollowsLastMove(s, front);
    }
  }

  /** Starting from the hook's initial state, the direction stays unset until the window first moves. */
  lemma NoDirectionUntilMoved(positions: seq<real>)
    requires forall i :: 0 <= i < |positions| ==> positions[i] == 0.0
    ensures Replay(InitialDirection, positions) == DirectionState(None, 0.0)
  {
    ReplayFollowsLastMove(InitialDirection, positions);
    NoMoveOnConstant(positions);
  }

  lemma {:induction false} NoMoveOnConstant(positions: seq<real>)
    requires forall i :: 0 <= i < |positions| ==> positions[i] == 0.0
    ensures LastMove(0.0, positions) == None
    ensures LastPosition(0.0, positions) == 0.0
    decreases |positions|
  {
    if positions != [] {
      NoMoveOnConstant(positions[..|positions| - 1]);
    }
  }

  /** The hook's state, updated by its scroll listener. */
  class ScrollDirection {
    var direction: Option<Direction>
    var lastScrollY: real

    function State(): DirectionState
      reads this
    {
      DirectionState(direction, lastScrollY)
    }

    /** No direction yet, and the last position is 0. */
    constructor ()
      ensures State() == InitialDirection
    {
      direction, lastScrollY := None, 0.0;
    }

    /** The scroll listener: down if the window moved down, up if it moved up, unchanged otherwise. */
    method HandleScroll(current: real)
      modifies this
      ensures State() == Step(old(State()), current)
      ensures lastScrollY == current
      ensures current > old(lastScrollY) ==> direction == Some(Down)
      ensures current < old(lastScrollY) ==> direction == Some(Up)
      ensures current == old(lastScrollY) ==> direction == old(direction)
    {
      if current > lastScrollY {
        direction := Some(Down);
      } else if current < lastScrollY {
        direction := Some(Up);
      }
      lastScrollY := current;
    }
  }

  // useSmoothScroll

  /** A `window.scrollTo` request. */
  datatype ScrollRequest = ScrollRequest(top: real, behavior: string)

  /**
   * `scrollToElement(id, offset)`: with `offsetTops` the document's elements
   * by id, a smooth scroll to the element's top less the offset (0 when left
   * out), or no request when there is no such element.
   */
  function ScrollToElement(offsetTops: map<string, real>, elementId: string, offset: Option<real>): (r: Option<ScrollRequest>)
    ensures r.Some? <==> elementId in offsetTops
    ensures r.Some? ==> r.value.top + Coalesce(offset, 0.0) == offsetTops[elementId] && r.value.behavior == "smooth"
  {
    if elementId in offsetTops then Some(ScrollRequest(offsetTops[elementId] - Coalesce(offset, 0.0), "smooth"))
    else None
  }

  /** Leaving the offset out is the same as passing 0: the window scrolls to the element's own top. */
  lemma DefaultOffsetIsZero(offsetTops: map<string, real>, elementId: string)
    ensures ScrollToElement(offsetTops, elementId, None) == ScrollToElement(offsetTops, elementId, Some(0.0))
    ensures elementId in offsetTops ==> ScrollToElement(offsetTops, elementId, None).value.top == offsetTops[elementId]
  {
  }
}
