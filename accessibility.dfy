/** Two rules of hooks/use-accessibility.ts: the roving index of `useKeyboardNavigation`
    and the swipe decision of `useTouchGestures`. Key names are the DOM `KeyboardEvent.key`
    strings; touch coordinates are CSS pixels and times are `Date.now()` milliseconds,
    given as inputs. Focus moves, `preventDefault`, the long-press timer and the listener
    wiring are left out. */
module Accessibility {
  import opened Wrappers

  datatype Orientation = Horizontal | Vertical | Both

  predicate IsVertical(o: Orientation) { o == Vertical || o == Both }
  predicate IsHorizontal(o: Orientation) { o == Horizontal || o == Both }

  /** The keys that move to the next item for the orientation. */
  predicate IsForward(key: string, o: Orientation) {
    (key == "ArrowDown" && IsVertical(o)) || (key == "ArrowRight" && IsHorizontal(o))
  }

  predicate IsBackward(key: string, o: Orientation) {
    (key == "ArrowUp" && IsVertical(o)) || (key == "ArrowLeft" && IsHorizontal(o))
  }

  predicate IsSelect(key: string) { key == "Enter" || key == " " }

  /** The index a key leads to, from `activeIndex` among `len` items. */
  function NavTarget(key: string, o: Orientation, loop: bool, len: int, active: int): int {
    if IsForward(key, o) then
      if active + 1 >= len then (if loop then 0 else len - 1) else active + 1
    else if IsBackward(key, o) then
      if active - 1 < 0 then (if loop then len - 1 else 0) else active - 1
    else if key == "Home" then 0
    else if key == "End" then len - 1
    else active
  }

  /** `handleKeyDown`'s branches: `newIndex` starts at the active index and each key
      reassigns it; Enter and Space report the active index to `onSelect` instead. */
  method KeyDown(key: string, o: Orientation, loop: bool, len: int, active: int)
    returns (newIndex: int, selected: Option<int>)
    ensures newIndex == NavTarget(key, o, loop, len, active)
    ensures selected == (if IsSelect(key) then Some(active) else None)
    ensures 0 <= active < len ==> 0 <= newIndex < len
  {
    newIndex := active;
    selected := None;
    if IsForward(key, o) {
      newIndex := active + 1;
      if newIndex >= len {
        newIndex := if loop then 0 else len - 1;
      }
    } else if IsBackward(key, o) {
      newIndex := active - 1;
      if newIndex < 0 {
        newIndex := if loop then len - 1 else 0;
      }
    } else if key == "Home" {
      newIndex := 0;
    } else if key == "End" {
      newIndex := len - 1;
    } else if IsSelect(key) {
      selected := Some(active);
    }
  }

  /** Keys other than the enabled arrows, Home and End leave the index where it is. */
  lemma OtherKeysStay(key: string, o: Orientation, loop: bool, len: int, active: int)
    requires !IsForward(key, o) && !IsBackward(key, o) && key != "Home" && key != "End"
    ensures NavTarget(key, o, loop, len, active) == active
  {
  }

  /** An arrow of the other orientation is not a move: ArrowLeft and ArrowRight do nothing
      in a vertical list, ArrowUp and ArrowDown nothing in a horizontal one. */
  lemma CrossArrowsStay(loop: bool, len: int, active: int)
    ensures NavTarget("ArrowLeft", Vertical, loop, len, active) == active
    ensures NavTarget("ArrowRight", Vertical, loop, len, active) == active
    ensures NavTarget("ArrowUp", Horizontal, loop, len, active) == active
    ensures NavTarget("ArrowDown", Horizontal, loop, len, active) == active
  {
  }

  /** With wrap-around a step forward and a step back return to the start; without it the
      ends hold. */
  lemma {:induction false} ForwardBackInverse(o: Orientation, loop: bool, len: int, active: int)
    requires 0 <= active < len
    ensures var fwd := if IsVertical(o) then "ArrowDown" else "ArrowRight";
            var back := if IsVertical(o) then "ArrowUp" else "ArrowLeft";
            && (loop ==> NavTarget(back, o, loop, len, NavTarget(fwd, o, loop, len, active)) == active)
            && (loop ==> NavTarget(fwd, o, loop, len, NavTarget(back, o, loop, len, active)) == active)
            && (!loop && active == len - 1 ==> NavTarget(fwd, o, loop, len, active) == active)
            && (!loop && active == 0 ==> NavTarget(back, o, loop, len, active) == active)
  {
    var fwd := if IsVertical(o) then "ArrowDown" else "ArrowRight";
    var back := if IsVertical(o) then "ArrowUp" else "ArrowLeft";
    assert IsForward(fwd, o) && !IsBackward(fwd, o);
    assert IsBackward(back, o) && !IsForward(back, o);
  }

  /** The keyboard hook's state: the active index and the indices reported to `onSelect`. */
  class KeyboardNavigation {
    const orientation: Orientation
    const loop: bool
    var activeIndex: int
    var selections: seq<int>

    /** `orientation` defaults to vertical and `loop` to true. */
    constructor(orientation: Orientation, loop: bool)
      ensures this.orientation == orientation && this.loop == loop
      ensures activeIndex == 0 && selections == []
    {
      this.orientation := orientation;
      this.loop := loop;
      activeIndex := 0;
      selections := [];
    }

    /** A key press with `len` items on the page. */
    method HandleKeyDown(key: string, len: int)
      modifies this
      ensures IsSelect(key) && !IsForward(key, orientation) && !IsBackward(key, orientation) ==>
                activeIndex == old(activeIndex) && selections == old(selections) + [old(activeIndex)]
      ensures !IsSelect(key) || IsForward(key, orientation) || IsBackward(key, orientation) ==>
                activeIndex == NavTarget(key, orientation, loop, len, old(activeIndex)) && selections == old(selections)
      ensures 0 <= old(activeIndex) < len ==> 0 <= activeIndex < len
    {
      var newIndex, selected := KeyDown(key, orientation, loop, len, activeIndex);
      if selected.Some? {
        selections := selections + [selected.value];
        return;
      }
      if newIndex != activeIndex {
        activeIndex := newIndex;
      }
    }
  }

  datatype Swipe = SwipeLeft | SwipeRight | SwipeUp | SwipeDown

  function Abs(x: real): real { if x < 0.0 then -x else x }

  /** `handleTouchEnd`'s decision: a quick, long enough move is a swipe along its larger
      axis, in the direction of its sign. */
  function Classify(elapsed: int, dx: real, dy: real): (r: Option<Swipe>)
    ensures r.Some? <==> elapsed < 300 && (Abs(dx) > 50.0 || Abs(dy) > 50.0)
    ensures r == Some(SwipeRight) <==> r.Some? && Abs(dx) > Abs(dy) && dx > 0.0
    ensures r == Some(SwipeLeft) <==> r.Some? && Abs(dx) > Abs(dy) && dx <= 0.0
    ensures r == Some(SwipeDown) <==> r.Some? && Abs(dx) <= Abs(dy) && dy > 0.0
    ensures r == Some(SwipeUp) <==> r.Some? && Abs(dx) <= Abs(dy) && dy <= 0.0
  {
    if elapsed < 300 && (Abs(dx) > 50.0 || Abs(dy) > 50.0) then
      if Abs(dx) > Abs(dy) then
        if dx > 0.0 then Some(SwipeRight) else Some(SwipeLeft)
      else
        if dy > 0.0 then Some(SwipeDown) else Some(SwipeUp)
    else None
  }

  function MirrorX(s: Swipe): Swipe {
    match s
    case SwipeLeft => SwipeRight
    case SwipeRight => SwipeLeft
    case other => other
  }

  function MirrorY(s: Swipe): Swipe {
    match s
    case SwipeUp => SwipeDown
    case SwipeDown => SwipeUp
    case other => other
  }

  /** Mirroring a move mirrors its swipe: a horizontal one left-to-right, a vertical one
      top-to-bottom. A zero component along the chosen axis counts as left or up, so it is
      left out. */
  lemma ClassifyMirrors(elapsed: int, dx: real, dy: real)
    requires dx != 0.0 && dy != 0.0
    ensures Classify(elapsed, -dx, dy) == (if Abs(dx) > Abs(dy) then Mirrored(Classify(elapsed, dx, dy), true)
                                           else Classify(elapsed, dx, dy))
    ensures Classify(elapsed, dx, -dy) == (if Abs(dx) > Abs(dy) then Classify(elapsed, dx, dy)
                                           else Mirrored(Classify(elapsed, dx, dy), false))
  {
  }

  function Mirrored(r: Option<Swipe>, horizontal: bool): Option<Swipe> {
    match r
    case None => None
    case Some(s) => Some(if horizontal then MirrorX(s) else MirrorY(s))
  }

  /** An exactly diagonal quick move counts as vertical. */
  lemma DiagonalIsVertical(elapsed: int, d: real)
    requires elapsed < 300 && d > 50.0
    ensures Classify(elapsed, d, d) == Some(SwipeDown) && Classify(elapsed, -d, -d) == Some(SwipeUp)
  {
  }

  /** The touch hook's closure variables, and the gestures handed to the handlers. */
  class TouchGestures {
    var startX: real
    var startY: real
    var startTime: int
    var fired: seq<Swipe>

    constructor()
      ensures startX == 0.0 && startY == 0.0 && startTime == 0 && fired == []
    {
      startX, startY, startTime := 0.0, 0.0, 0;
      fired := [];
    }

    /** `handleTouchStart`: remembers where and when the touch began. */
    method TouchStart(x: real, y: real, now: int)
      modifies this
      ensures startX == x && startY == y && startTime == now && fired == old(fired)
    {
      startX, startY, startTime := x, y, now;
    }

    /** `handleTouchEnd`: at most one swipe handler runs per touch. */
    method TouchEnd(x: real, y: real, now: int)
      modifies this
      ensures startX == old(startX) && startY == old(startY) && startTime == old(startTime)
      ensures var c := Classify(now - old(startTime), x - old(startX), y - old(startY));
              fired == old(fired) + (if c.Some? then [c.value] else [])
      ensures |fired| <= |old(fired)| + 1
    {
      var c := Classify(now - startTime, x - startX, y - startY);
      if c.Some? {
        fired := fired + [c.value];
      }
    }
  }
}
