/** The blue overlay service (`OverlayServiceBlue`): instead of switching the visibility
    of two mounted views it replaces its one window view on every switch, inflating the
    blue eye or the placeholder. */
module OverlayBlue {
  import opened Wrappers
  import opened Platform
  import opened Window
  import Overlay

  const DEFAULT_DURATION_MS := 3000
  const EYE_SIZE_DP: real := 50.0
  const TOP_OFFSET_DP: real := 200.0

  datatype BlueView = BlueView(id: nat, layout: Overlay.Layout)

  /** Everything the service holds, together with the main looper's clock, the pending
      posts of its switch runnable, and the views the window manager has attached.
      `drag` is the drag start of the listener installed on the current view. */
  datatype Blue = Blue(
    now: int,
    switchDue: seq<int>,
    onDuration: int,
    offDuration: int,
    showingHidden: bool,
    overlayView: Option<BlueView>,
    params: LayoutParams,
    drag: DragStart,
    attached: set<nat>,
    nextViewId: nat)

  function Fresh(clock: int): Blue {
    Blue(clock, [], DEFAULT_DURATION_MS, DEFAULT_DURATION_MS, false, None, LayoutParams(0, 0, 0), NO_DRAG, {}, 0)
  }

  /** The fields of a new listener object: `initialX`, `initialY`, `initialTouchX` and
      `initialTouchY` all start at zero. */
  const NO_DRAG := DragStart(0, 0, 0.0, 0.0)

  /** The layout `updateOverlay` inflates. */
  function LayoutFor(useHidden: bool): Overlay.Layout {
    if useHidden then Overlay.OverlayViewHidden else Overlay.OverlayViewBlue
  }

  /** `removeView` of the held view throws when the window manager never accepted it:
      after a refused `addView` the service still holds the view it inflated. */
  predicate RemoveThrows(s: Blue) {
    s.overlayView.Some? && s.overlayView.value.id !in s.attached
  }

  /** `updateOverlay` throws when removing the held view throws or when the window
      manager refuses the new one (neither call is guarded). */
  predicate UpdateThrows(s: Blue, addViewFails: bool) {
    RemoveThrows(s) || addViewFails
  }

  /** `updateOverlay(useHidden)`: removes the current view from the window, inflates the
      placeholder or the blue eye with a new drag listener of its own, and adds it. The
      state is the one the call leaves, also when it throws: a throwing `removeView`
      changes nothing, a refused `addView` leaves the new view held but not attached. */
  function Updated(s: Blue, useHidden: bool, addViewFails: bool): Blue {
    if RemoveThrows(s) then s
    else
      var removed := if s.overlayView.Some? then s.attached - {s.overlayView.value.id} else s.attached;
      s.(overlayView := Some(BlueView(s.nextViewId, LayoutFor(useHidden))),
         drag := NO_DRAG,
         attached := if addViewFails then removed else removed + {s.nextViewId},
         nextViewId := s.nextViewId + 1)
  }

  /** `handler.postDelayed(switchRunnable, delay)`. */
  function SwitchPosted(s: Blue, delay: int): Blue {
    s.(switchDue := s.switchDue + [DueAfter(s.now, delay)])
  }

  /** `onStartCommand`: reads the `Long` extras (3000 ms when absent), places a 50 dp
      window 200 dp from the top, shows the eye with `showingHidden` reset, and posts the
      switch after the on-duration. Switch posts of earlier starts stay pending. When
      `updateOverlay` throws, the command ends there and nothing is posted. */
  function StartStep(s: Blue, intent: Option<Extras>, density: real, addViewFails: bool): Blue {
    var configured :=
      s.(onDuration := GetLongExtra(intent, "onDuration", DEFAULT_DURATION_MS),
         offDuration := GetLongExtra(intent, "offDuration", DEFAULT_DURATION_MS),
         params := LayoutParams(DpToPx(EYE_SIZE_DP, density), 0, DpToPx(TOP_OFFSET_DP, density)),
         showingHidden := false);
    var shown := Updated(configured, false, addViewFails);
    if UpdateThrows(configured, addViewFails) then shown else SwitchPosted(shown, shown.onDuration)
  }

  /** `switchRunnable`, run for its `i`-th pending post: flips `showingHidden`, replaces
      the view accordingly, and posts itself again after the off-duration when it has just
      hidden the eye and after the on-duration otherwise. When `updateOverlay` throws,
      the runnable ends before posting itself again. */
  function FireStep(s: Blue, i: nat, addViewFails: bool): Blue
    requires i < |s.switchDue|
  {
    var d := s.switchDue[i];
    var flipped := s.(now := d, showingHidden := !s.showingHidden, switchDue := RemoveAt(s.switchDue, i));
    var updated := Updated(flipped, flipped.showingHidden, addViewFails);
    if UpdateThrows(flipped, addViewFails) then updated
    else SwitchPosted(updated, if updated.showingHidden then updated.offDuration else updated.onDuration)
  }

  /** The current view is in the window, so touches reach its listener. */
  predicate OnScreen(s: Blue) {
    s.overlayView.Some? && s.overlayView.value.id in s.attached
  }

  /** The listener of the view on screen: a press records where the drag starts, a move
      places the window relative to it (`layoutParams` is shared by all the views). */
  function TouchStep(s: Blue, action: MotionAction, rawX: real, rawY: real): Blue
    requires OnScreen(s)
  {
    match action
    case ActionDown => s.(drag := DragStart(s.params.x, s.params.y, rawX, rawY))
    case ActionMove => s.(params := Dragged(s.params, s.drag, rawX, rawY))
    case OtherAction(_) => s
  }

  /** `onDestroy` throws when it removes a view the window manager never accepted. */
  predicate DestroyThrows(s: Blue) {
    RemoveThrows(s)
  }

  /** `onDestroy`: cancels every pending switch, then removes the view and forgets it;
      when the removal throws, the view stays held. */
  function Destroyed(s: Blue): Blue {
    var cancelled := s.(switchDue := []);
    if s.overlayView.Some? && !DestroyThrows(s) then
      cancelled.(attached := s.attached - {s.overlayView.value.id}, overlayView := None)
    else cancelled
  }

  /** Time passing on the main looper with nothing run: the clock moves on to `t`. */
  function Ticked(s: Blue, t: int): Blue {
    s.(now := t)
  }

  ghost predicate IsNext(s: Blue, d: int) {
    forall k :: 0 <= k < |s.switchDue| ==> d <= s.switchDue[k]
  }

  /** What holds in every reachable state: nothing pending lies in the past, the window
      holds nothing or exactly the current view (so at most one view), view ids are
      handed out fresh, and an attached view is the placeholder iff `showingHidden`. */
  ghost predicate Inv(s: Blue) {
    IsNext(s, s.now) &&
    (s.attached == {} || (s.overlayView.Some? && s.attached == {s.overlayView.value.id})) &&
    (s.overlayView.Some? ==> s.overlayView.value.id < s.nextViewId) &&
    (s.overlayView.Some? && s.overlayView.value.id in s.attached ==>
       s.overlayView.value.layout == LayoutFor(s.showingHidden))
  }

  lemma FreshInv(clock: int)
    ensures Inv(Fresh(clock))
  {
  }

  /** A start keeps the invariant and resets `showingHidden`. Unless `updateOverlay`
      throws, the blue eye is the one view on screen and one switch is posted after the
      on-duration besides everything posted before; when it throws, nothing is on screen
      and nothing new is pending. */
  lemma {:induction false} StartKeepsInv(s: Blue, intent: Option<Extras>, density: real, addViewFails: bool)
    requires Inv(s)
    ensures Inv(StartStep(s, intent, density, addViewFails))
    ensures !StartStep(s, intent, density, addViewFails).showingHidden
    ensures var t := StartStep(s, intent, density, addViewFails);
      !UpdateThrows(s, addViewFails) ==>
        t.overlayView == Some(BlueView(s.nextViewId, Overlay.OverlayViewBlue)) &&
        t.attached == {s.nextViewId} &&
        t.switchDue == s.switchDue + [DueAfter(s.now, t.onDuration)]
    ensures var t := StartStep(s, intent, density, addViewFails);
      UpdateThrows(s, addViewFails) ==> t.attached == {} && t.switchDue == s.switchDue
  {
    var t := StartStep(s, intent, density, addViewFails);
    if !UpdateThrows(s, addViewFails) {
      forall k | 0 <= k < |t.switchDue| ensures s.now <= t.switchDue[k] {
        if k < |s.switchDue| {
          assert t.switchDue[k] == s.switchDue[k];
        }
      }
    }
  }

  /** Running the earliest pending switch keeps the invariant; unless `updateOverlay`
      throws, exactly one switch is posted again. */
  lemma {:induction false} FireKeepsInv(s: Blue, i: nat, addViewFails: bool)
    requires Inv(s) && i < |s.switchDue| && IsNext(s, s.switchDue[i])
    ensures Inv(FireStep(s, i, addViewFails))
    ensures |FireStep(s, i, addViewFails).switchDue| ==
      if UpdateThrows(s, addViewFails) then |s.switchDue| - 1 else |s.switchDue|
  {
    var t := FireStep(s, i, addViewFails);
    forall k | 0 <= k < |t.switchDue| ensures s.switchDue[i] <= t.switchDue[k] {
      if k < |s.switchDue| - 1 {
        assert t.switchDue[k] == RemoveAt(s.switchDue, i)[k];
      }
    }
  }

  /** Once the window manager has refused a view, every later switch throws at the
      `removeView` of that view: it changes no view, drops its own post without posting
      again, and leaves the refused view held, so the blinking dies out. */
  lemma RefusedViewStopsTheBlink(s: Blue, i: nat, addViewFails: bool)
    requires Inv(s) && RemoveThrows(s) && i < |s.switchDue|
    ensures var t := FireStep(s, i, addViewFails);
      RemoveThrows(t) && t.overlayView == s.overlayView && t.attached == {} &&
      t.switchDue == RemoveAt(s.switchDue, i)
  {
  }

  /** At most one view of the service is ever on screen. */
  lemma AtMostOneView(s: Blue)
    requires Inv(s)
    ensures |s.attached| <= 1
  {
  }

  /** After `onDestroy` nothing is pending and nothing is on screen; the view is
      forgotten unless its removal threw. */
  lemma DestroyClearsEverything(s: Blue)
    requires Inv(s)
    ensures Inv(Destroyed(s))
    ensures Destroyed(s).switchDue == [] && Destroyed(s).attached == {}
    ensures Destroyed(s).overlayView.None? <==> !DestroyThrows(s)
  {
  }

  /** Letting time pass up to the next post keeps the invariant and any run; a start
      command that arrives then posts its switch relative to its own arrival. */
  lemma TickKeepsInv(s: Blue, t: int, start: int, fires: nat, intent: Option<Extras>, density: real)
    requires Inv(s) && s.now <= t && IsNext(s, t)
    ensures Inv(Ticked(s, t))
    ensures OneRun(s, start, fires) ==> OneRun(Ticked(s, t), start, fires)
    ensures var u := StartStep(Ticked(s, t), intent, density, false);
      !RemoveThrows(s) ==> u.switchDue == s.switchDue + [DueAfter(t, u.onDuration)]
  {
  }

  /** The state of a single run started at `start`: the view on screen, one pending
      switch at the time this run's delays put it, and the placeholder showing after an
      odd number of switches. */
  ghost predicate OneRun(s: Blue, start: int, fires: nat) {
    s.overlayView.Some? && s.attached == {s.overlayView.value.id} &&
    s.switchDue == [Overlay.SwitchDueAt(start, s.onDuration, s.offDuration, fires)] &&
    s.showingHidden == (fires % 2 == 1)
  }

  /** A touch changes only the window position and the drag start, and keeps the
      invariant. */
  lemma TouchKeepsInv(s: Blue, action: MotionAction, rawX: real, rawY: real)
    requires Inv(s) && OnScreen(s)
    ensures var t := TouchStep(s, action, rawX, rawY);
      Inv(t) && OnScreen(t) && t.(params := s.params, drag := s.drag) == s
  {
  }

  /** A press and a move by whole pixels drag the window along with the finger,
      mirrored in x for the right-anchored window. */
  lemma PressThenMoveFollowsFinger(s: Blue, rawX: real, rawY: real, dx: int, dy: int)
    requires OnScreen(s)
    requires INT_MIN <= dx <= INT_MAX && INT_MIN <= dy <= INT_MAX
    ensures var pressed := TouchStep(s, ActionDown, rawX, rawY);
      OnScreen(pressed) &&
      TouchStep(pressed, ActionMove, rawX + dx as real, rawY + dy as real).params ==
        s.params.(x := s.params.x - dx, y := s.params.y + dy)
  {
    var pressed := TouchStep(s, ActionDown, rawX, rawY);
    DraggedByWholePixels(s.params, pressed.drag, dx, dy);
  }

  /** Each switch installs a new listener whose drag start is zero, so a move that
      reaches the new view before any press places the window at the finger's raw
      offset rather than relative to where it was. */
  lemma MoveOnNewViewStartsFromZero(s: Blue, useHidden: bool, rawX: real, rawY: real)
    requires Inv(s) && !RemoveThrows(s)
    ensures var u := Updated(s, useHidden, false);
      OnScreen(u) &&
      TouchStep(u, ActionMove, rawX, rawY).params == s.params.(x := -FloatToInt(rawX), y := FloatToInt(rawY))
  {
    var u := Updated(s, useHidden, false);
    assert u.drag == NO_DRAG;
    assert rawX - 0.0 == rawX && rawY - 0.0 == rawY;
  }

  /** The dragged position is kept by every switch, since all views share one
      `layoutParams`; only the next start puts the window back at its start position. */
  lemma PositionKeptUntilNextStart(s: Blue, i: nat, addViewFails: bool, intent: Option<Extras>, density: real)
    requires i < |s.switchDue|
    ensures FireStep(s, i, addViewFails).params == s.params
    ensures StartStep(s, intent, density, addViewFails).params ==
      LayoutParams(DpToPx(EYE_SIZE_DP, density), 0, DpToPx(TOP_OFFSET_DP, density))
  {
  }

  /** The first start of a fresh service that the window manager accepts begins a run;
      a refused one leaves nothing pending. */
  lemma FreshStartIsOneRun(clock: int, intent: Option<Extras>, density: real, addViewFails: bool)
    ensures !addViewFails ==> OneRun(StartStep(Fresh(clock), intent, density, addViewFails), clock, 0)
    ensures addViewFails ==> StartStep(Fresh(clock), intent, density, addViewFails).switchDue == []
  {
  }

  /** Within a run each switch the window manager accepts flips the view shown and
      re-posts itself at the run's schedule, the same schedule as the main overlay
      service's; a refused one ends the run with nothing pending. */
  lemma FireKeepsOneRun(s: Blue, start: int, fires: nat, addViewFails: bool)
    requires OneRun(s, start, fires)
    ensures !addViewFails ==> OneRun(FireStep(s, 0, addViewFails), start, fires + 1)
    ensures addViewFails ==> FireStep(s, 0, addViewFails).switchDue == []
  {
    assert RemoveAt(s.switchDue, 0) == [];
  }

  class OverlayServiceBlue {
    var now: int
    var switchDue: seq<int>
    var onDuration: int
    var offDuration: int
    var showingHidden: bool
    var overlayView: Option<BlueView>
    var params: LayoutParams
    /** The drag start of the current view's listener. */
    var drag: DragStart
    var attached: set<nat>
    var nextViewId: nat

    function State(): Blue
      reads this
    {
      Blue(now, switchDue, onDuration, offDuration, showingHidden, overlayView, params, drag, attached, nextViewId)
    }

    ghost predicate Valid()
      reads this
    {
      Inv(State())
    }

    constructor (clock: int)
      ensures State() == Fresh(clock) && Valid()
    {
      now, switchDue := clock, [];
      onDuration, offDuration := DEFAULT_DURATION_MS, DEFAULT_DURATION_MS;
      showingHidden := false;
      overlayView := None;
      params := LayoutParams(0, 0, 0);
      drag := NO_DRAG;
      attached, nextViewId := {}, 0;
    }

    method Start(intent: Option<Extras>, density: real, addViewFails: bool) returns (throws: bool)
      requires Valid()
      modifies this
      ensures throws == UpdateThrows(old(State()), addViewFails)
      ensures State() == StartStep(old(State()), intent, density, addViewFails)
      ensures Valid()
    {
      StartKeepsInv(State(), intent, density, addViewFails);
      onDuration := GetLongExtra(intent, "onDuration", DEFAULT_DURATION_MS);
      offDuration := GetLongExtra(intent, "offDuration", DEFAULT_DURATION_MS);
      params := LayoutParams(DpToPx(EYE_SIZE_DP, density), 0, DpToPx(TOP_OFFSET_DP, density));
      showingHidden := false;
      throws := UpdateOverlay(showingHidden, addViewFails);
      if !throws {
        PostSwitch(onDuration);
      }
    }

    method UpdateOverlay(useHidden: bool, addViewFails: bool) returns (throws: bool)
      modifies this
      ensures throws == UpdateThrows(old(State()), addViewFails)
      ensures State() == Updated(old(State()), useHidden, addViewFails)
    {
      if overlayView.Some? {
        if overlayView.value.id !in attached {
          return true;
        }
        attached := attached - {overlayView.value.id};
      }
      overlayView := Some(BlueView(nextViewId, LayoutFor(useHidden)));
      drag := NO_DRAG;
      nextViewId := nextViewId + 1;
      throws := addViewFails;
      if !throws {
        attached := attached + {overlayView.value.id};
      }
    }

    method PostSwitch(delay: int)
      modifies this
      ensures State() == SwitchPosted(old(State()), delay)
    {
      switchDue := switchDue + [DueAfter(now, delay)];
    }

    method Fire(i: nat, addViewFails: bool) returns (throws: bool)
      requires Valid() && i < |switchDue| && IsNext(State(), switchDue[i])
      modifies this
      ensures throws == UpdateThrows(old(State()), addViewFails)
      ensures State() == FireStep(old(State()), i, addViewFails)
      ensures Valid()
    {
      FireKeepsInv(State(), i, addViewFails);
      now := switchDue[i];
      switchDue := RemoveAt(switchDue, i);
      showingHidden := !showingHidden;
      throws := UpdateOverlay(showingHidden, addViewFails);
      if !throws {
        PostSwitch(if showingHidden then offDuration else onDuration);
      }
    }

    /** Time passes on the main looper up to `t`, before the next pending post. */
    method Tick(t: int)
      requires Valid() && now <= t && IsNext(State(), t)
      modifies this
      ensures State() == Ticked(old(State()), t)
      ensures Valid()
    {
      TickKeepsInv(State(), t, 0, 0, None, 1.0);
      now := t;
    }

    /** The current view's drag listener receiving a touch event. */
    method Touch(action: MotionAction, rawX: real, rawY: real) returns (handled: bool)
      requires Valid() && OnScreen(State())
      modifies this
      ensures handled == Consumes(action)
      ensures State() == TouchStep(old(State()), action, rawX, rawY)
      ensures Valid()
    {
      TouchKeepsInv(State(), action, rawX, rawY);
      handled := false;
      match action {
        case ActionDown =>
          drag := DragStart(params.x, params.y, rawX, rawY);
          handled := true;
        case ActionMove =>
          params := Dragged(params, drag, rawX, rawY);
          handled := true;
        case OtherAction(_) =>
      }
    }

    method Destroy() returns (throws: bool)
      requires Valid()
      modifies this
      ensures throws == DestroyThrows(old(State()))
      ensures State() == Destroyed(old(State()))
      ensures Valid()
    {
      DestroyClearsEverything(State());
      switchDue := [];
      throws := false;
      if overlayView.Some? {
        if overlayView.value.id in attached {
          attached := attached - {overlayView.value.id};
          overlayView := None;
        } else {
          throws := true;
        }
      }
    }
  }
}
