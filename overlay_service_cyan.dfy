/** The cyan overlay service (`OverlayServiceCyan`): one eye view that blinks by switching
    between visible and invisible. Every start command inflates a new view and creates a
    new blink runnable; stopping cancels only the runnable of the latest start.

    Runnables are told apart by an id handed out when each one is created; a pending post
    names the runnable it runs. */
module OverlayCyan {
  import opened Wrappers
  import opened Platform
  import opened Window

  const DEFAULT_BLINK_MS := 1000
  const EYE_SIZE_DP: real := 50.0
  const TOP_OFFSET_DP: real := 200.0

  datatype EyeView = EyeView(id: nat, visibility: Visibility)

  /** A pending post of the runnable with id `runnable`, due at `due`. */
  datatype Post = Post(runnable: nat, due: int)

  /** Everything the service holds, together with the main looper's clock, the pending
      posts of all blink runnables, and the views the window manager has attached. */
  datatype Cyan = Cyan(
    now: int,
    posts: seq<Post>,
    blinkRunnable: Option<nat>,
    nextRunnable: nat,
    onDuration: int,
    offDuration: int,
    overlayView: Option<EyeView>,
    params: LayoutParams,
    drag: DragStart,
    attached: set<nat>,
    nextViewId: nat)

  function Fresh(clock: int): Cyan {
    Cyan(clock, [], None, 0, DEFAULT_BLINK_MS, DEFAULT_BLINK_MS, None,
         LayoutParams(0, 0, 0), DragStart(0, 0, 0.0, 0.0), {}, 0)
  }

  /** The blink durations `onStartCommand` reads: `Int` extras, 1000 ms when absent. */
  function Configured(s: Cyan, intent: Option<Extras>): Cyan {
    s.(onDuration := GetIntExtra(intent, "onDuration", DEFAULT_BLINK_MS),
       offDuration := GetIntExtra(intent, "offDuration", DEFAULT_BLINK_MS))
  }

  /** The first half of `setupOverlay`: a 50 dp window at the top-right corner, 200 dp
      from the top, and a freshly inflated eye view with a new drag listener. */
  function Inflated(s: Cyan, density: real): Cyan {
    s.(params := LayoutParams(DpToPx(EYE_SIZE_DP, density), 0, DpToPx(TOP_OFFSET_DP, density)),
       overlayView := Some(EyeView(s.nextViewId, Visible)),
       nextViewId := s.nextViewId + 1,
       drag := DragStart(0, 0, 0.0, 0.0))
  }

  /** `windowManager?.addView(overlayView, layoutParams)`. */
  function ViewAdded(s: Cyan): Cyan
    requires s.overlayView.Some?
  {
    s.(attached := s.attached + {s.overlayView.value.id})
  }

  /** `startBlinking`: shows the view, creates a new blink runnable and posts it after the
      on-duration. */
  function BlinkStarted(s: Cyan): Cyan {
    s.(overlayView := if s.overlayView.Some? then Some(s.overlayView.value.(visibility := Visible)) else None,
       blinkRunnable := Some(s.nextRunnable),
       nextRunnable := s.nextRunnable + 1,
       posts := s.posts + [Post(s.nextRunnable, DueAfter(s.now, s.onDuration))])
  }

  /** `onStartCommand`. When the window manager refuses the view, the exception leaves
      the command before the blinking starts. */
  function StartStep(s: Cyan, intent: Option<Extras>, density: real, addViewFails: bool): Cyan {
    var inflated := Inflated(Configured(s, intent), density);
    if addViewFails then inflated else BlinkStarted(ViewAdded(inflated))
  }

  /** The blink runnable's toggle: a visible view becomes invisible, any other visible. */
  function Toggled(v: Option<EyeView>): Option<EyeView> {
    if v.None? then None
    else Some(v.value.(visibility := if v.value.visibility == Visible then Invisible else Visible))
  }

  /** The delay before the next blink: the on-duration while the view is visible, the
      off-duration otherwise (also when there is no view any more). */
  function NextDelay(s: Cyan): int {
    if s.overlayView.Some? && s.overlayView.value.visibility == Visible then s.onDuration else s.offDuration
  }

  /** A blink runnable, run for the `i`-th pending post: toggles the view the service holds
      now and posts itself again. */
  function FireStep(s: Cyan, i: nat): Cyan
    requires i < |s.posts|
  {
    var p := s.posts[i];
    var toggled := s.(now := p.due, overlayView := Toggled(s.overlayView));
    toggled.(posts := RemoveAt(s.posts, i) + [Post(p.runnable, DueAfter(p.due, NextDelay(toggled)))])
  }

  /** The posts that remain after `removeCallbacks` of runnable `r`. */
  function Without(posts: seq<Post>, r: nat): (q: seq<Post>)
    ensures forall p :: p in q <==> p in posts && p.runnable != r
    ensures |q| <= |posts|
  {
    if posts == [] then []
    else (if posts[0].runnable == r then [] else [posts[0]]) + Without(posts[1..], r)
  }

  /** `stopBlinking`: cancels the runnable of the latest start and shows the view. */
  function Stopped(s: Cyan): Cyan {
    s.(posts := if s.blinkRunnable.Some? then Without(s.posts, s.blinkRunnable.value) else s.posts,
       overlayView := if s.overlayView.Some? then Some(s.overlayView.value.(visibility := Visible)) else None)
  }

  /** `onDestroy` throws when it removes a view the window manager never accepted. */
  predicate DestroyThrows(s: Cyan) {
    s.overlayView.Some? && s.overlayView.value.id !in s.attached
  }

  /** `onDestroy`: stops blinking, then removes the view and forgets it. */
  function Destroyed(s: Cyan): Cyan {
    var stopped := Stopped(s);
    if s.overlayView.Some? && !DestroyThrows(s) then
      stopped.(attached := s.attached - {s.overlayView.value.id}, overlayView := None)
    else stopped
  }

  /** The drag listener on the eye. */
  function TouchStep(s: Cyan, action: MotionAction, rawX: real, rawY: real): Cyan {
    match action
    case ActionDown => s.(drag := DragStart(s.params.x, s.params.y, rawX, rawY))
    case ActionMove => s.(params := Dragged(s.params, s.drag, rawX, rawY))
    case OtherAction(_) => s
  }

  /** Time passing on the main looper with nothing run: the clock moves on to `t`. */
  function Ticked(s: Cyan, t: int): Cyan {
    s.(now := t)
  }

  /** `d` is no later than any pending post: the looper runs it next. */
  ghost predicate IsNext(s: Cyan, d: int) {
    forall k :: 0 <= k < |s.posts| ==> d <= s.posts[k].due
  }

  /** What holds in every reachable state: nothing pending lies in the past, runnable
      and view ids are handed out fresh, and the view is never `GONE`. */
  ghost predicate Inv(s: Cyan) {
    IsNext(s, s.now) &&
    (forall k :: 0 <= k < |s.posts| ==> s.posts[k].runnable < s.nextRunnable) &&
    (s.blinkRunnable.Some? ==> s.blinkRunnable.value < s.nextRunnable) &&
    (s.overlayView.Some? ==> s.overlayView.value.visibility != Gone && s.overlayView.value.id < s.nextViewId) &&
    (forall v :: v in s.attached ==> v < s.nextViewId)
  }

  lemma FreshInv(clock: int)
    ensures Inv(Fresh(clock))
  {
  }

  /** A start keeps the invariant; unless the view was refused, it leaves a single post
      of a brand-new runnable besides everything posted before. */
  lemma {:induction false} StartKeepsInv(s: Cyan, intent: Option<Extras>, density: real, addViewFails: bool)
    requires Inv(s)
    ensures Inv(StartStep(s, intent, density, addViewFails))
    ensures addViewFails ==> StartStep(s, intent, density, addViewFails).posts == s.posts
    ensures !addViewFails ==>
      var t := StartStep(s, intent, density, addViewFails);
      t.posts[..|s.posts|] == s.posts && |t.posts| == |s.posts| + 1 &&
      t.blinkRunnable == Some(t.posts[|s.posts|].runnable) &&
      forall k :: 0 <= k < |s.posts| ==> s.posts[k].runnable != t.blinkRunnable.value
  {
    var t := StartStep(s, intent, density, addViewFails);
    if !addViewFails {
      forall k | 0 <= k < |t.posts| ensures s.now <= t.posts[k].due && t.posts[k].runnable < t.nextRunnable {
        if k < |s.posts| {
          assert t.posts[k] == s.posts[k];
        }
      }
    }
  }

  /** Running the earliest pending post keeps the invariant. */
  lemma {:induction false} FireKeepsInv(s: Cyan, i: nat)
    requires Inv(s) && i < |s.posts| && IsNext(s, s.posts[i].due)
    ensures Inv(FireStep(s, i))
  {
    var t := FireStep(s, i);
    forall k | 0 <= k < |t.posts| ensures s.posts[i].due <= t.posts[k].due && t.posts[k].runnable < t.nextRunnable {
      if k < |s.posts| - 1 {
        assert t.posts[k] == RemoveAt(s.posts, i)[k];
      }
    }
  }

  /** With a single runnable pending, two blinks bring the view back to how it was and
      move the next blink on by one on-period and one off-period. */
  lemma {:induction false} TwoBlinksMakeACycle(s: Cyan)
    requires |s.posts| == 1 && s.overlayView.Some? && s.overlayView.value.visibility != Gone
    ensures var t := FireStep(FireStep(s, 0), 0);
      t.overlayView == s.overlayView &&
      t.posts == [Post(s.posts[0].runnable, s.posts[0].due + WaitFor(s.onDuration) + WaitFor(s.offDuration))]
  {
    var once := FireStep(s, 0);
    assert RemoveAt(s.posts, 0) == [];
    assert RemoveAt(once.posts, 0) == [];
  }

  /** `stopBlinking` cancels exactly the posts of the latest start's runnable. */
  lemma StopCancelsLatestOnly(s: Cyan)
    ensures forall p :: p in Stopped(s).posts <==> p in s.posts && Some(p.runnable) != s.blinkRunnable
    ensures s.overlayView.Some? ==> Stopped(s).overlayView == Some(s.overlayView.value.(visibility := Visible))
  {
  }

  /** A second start command leaves the first start's runnable pending, `onDestroy`
      cancels only the second one, and the first one keeps running after the service is
      gone. */
  lemma {:induction false} EarlierBlinkOutlivesDestroy(s: Cyan, intent: Option<Extras>, density: real)
    requires Inv(s)
    ensures forall p :: p in s.posts ==> p in Destroyed(StartStep(s, intent, density, false)).posts
  {
    var t := StartStep(s, intent, density, false);
    StartKeepsInv(s, intent, density, false);
    forall p | p in s.posts ensures p in Destroyed(t).posts {
      var k :| 0 <= k < |s.posts| && s.posts[k] == p;
      assert t.posts[k] == p;
    }
  }

  /** Once the view is gone, a blink runnable that is still pending re-posts itself after
      the off-duration every time it runs. */
  lemma OrphanBlinkKeepsRunning(s: Cyan, i: nat)
    requires s.overlayView.None? && i < |s.posts|
    ensures FireStep(s, i).posts == RemoveAt(s.posts, i) + [Post(s.posts[i].runnable, DueAfter(s.posts[i].due, s.offDuration))]
    ensures FireStep(s, i).overlayView.None?
  {
  }

  /** `onDestroy` keeps the invariant and, unless it threw, takes the view off the
      window. */
  lemma DestroyKeepsInv(s: Cyan)
    requires Inv(s)
    ensures Inv(Destroyed(s))
    ensures !DestroyThrows(s) ==> Destroyed(s).overlayView.None?
    ensures s.overlayView.Some? && !DestroyThrows(s) ==> s.overlayView.value.id !in Destroyed(s).attached
  {
    var t := Destroyed(s);
    forall k | 0 <= k < |t.posts| ensures s.now <= t.posts[k].due && t.posts[k].runnable < t.nextRunnable {
      assert t.posts[k] in s.posts;
    }
  }

  /** Letting time pass up to the next post keeps the invariant; a start command that
      arrives then posts its new runnable relative to its own arrival, after everything
      posted before. */
  lemma TickKeepsInv(s: Cyan, t: int, intent: Option<Extras>, density: real)
    requires Inv(s) && s.now <= t && IsNext(s, t)
    ensures Inv(Ticked(s, t))
    ensures var u := StartStep(Ticked(s, t), intent, density, false);
      u.posts == s.posts + [Post(s.nextRunnable, DueAfter(t, u.onDuration))]
  {
  }

  class OverlayServiceCyan {
    var now: int
    var posts: seq<Post>
    var blinkRunnable: Option<nat>
    var nextRunnable: nat
    var onDuration: int
    var offDuration: int
    var overlayView: Option<EyeView>
    var params: LayoutParams
    /** The fields of the drag listener installed on the current view. */
    var drag: DragStart
    var attached: set<nat>
    var nextViewId: nat

    function State(): Cyan
      reads this
    {
      Cyan(now, posts, blinkRunnable, nextRunnable, onDuration, offDuration, overlayView,
           params, drag, attached, nextViewId)
    }

    ghost predicate Valid()
      reads this
    {
      Inv(State())
    }

    constructor (clock: int)
      ensures State() == Fresh(clock) && Valid()
    {
      now := clock;
      posts, blinkRunnable, nextRunnable := [], None, 0;
      onDuration, offDuration := DEFAULT_BLINK_MS, DEFAULT_BLINK_MS;
      overlayView := None;
      params := LayoutParams(0, 0, 0);
      drag := DragStart(0, 0, 0.0, 0.0);
      attached, nextViewId := {}, 0;
    }

    method Start(intent: Option<Extras>, density: real, addViewFails: bool) returns (throws: bool)
      requires Valid()
      modifies this
      ensures throws == addViewFails
      ensures State() == StartStep(old(State()), intent, density, addViewFails)
      ensures Valid()
    {
      StartKeepsInv(State(), intent, density, addViewFails);
      onDuration := GetIntExtra(intent, "onDuration", DEFAULT_BLINK_MS);
      offDuration := GetIntExtra(intent, "offDuration", DEFAULT_BLINK_MS);
      throws := SetupOverlay(density, addViewFails);
    }

    method SetupOverlay(density: real, addViewFails: bool) returns (throws: bool)
      modifies this
      ensures throws == addViewFails
      ensures State() == if addViewFails then Inflated(old(State()), density)
                         else BlinkStarted(ViewAdded(Inflated(old(State()), density)))
    {
      params := LayoutParams(DpToPx(EYE_SIZE_DP, density), 0, DpToPx(TOP_OFFSET_DP, density));
      overlayView := Some(EyeView(nextViewId, Visible));
      nextViewId := nextViewId + 1;
      drag := DragStart(0, 0, 0.0, 0.0);
      throws := addViewFails;
      if !throws {
        attached := attached + {overlayView.value.id};
        StartBlinking();
      }
    }

    method StartBlinking()
      modifies this
      ensures State() == BlinkStarted(old(State()))
    {
      if overlayView.Some? {
        overlayView := Some(overlayView.value.(visibility := Visible));
      }
      var runnable := nextRunnable;
      blinkRunnable, nextRunnable := Some(runnable), runnable + 1;
      posts := posts + [Post(runnable, DueAfter(now, onDuration))];
    }

    method Fire(i: nat)
      requires Valid() && i < |posts| && IsNext(State(), posts[i].due)
      modifies this
      ensures State() == FireStep(old(State()), i)
      ensures Valid()
    {
      FireKeepsInv(State(), i);
      var p := posts[i];
      now := p.due;
      overlayView := Toggled(overlayView);
      var nextDelay := if overlayView.Some? && overlayView.value.visibility == Visible then onDuration else offDuration;
      posts := RemoveAt(posts, i) + [Post(p.runnable, DueAfter(p.due, nextDelay))];
    }

    method StopBlinking()
      modifies this
      ensures State() == Stopped(old(State()))
    {
      if blinkRunnable.Some? {
        posts := Without(posts, blinkRunnable.value);
      }
      if overlayView.Some? {
        overlayView := Some(overlayView.value.(visibility := Visible));
      }
    }

    /** Time passes on the main looper up to `t`, before the next pending post. */
    method Tick(t: int)
      requires Valid() && now <= t && IsNext(State(), t)
      modifies this
      ensures State() == Ticked(old(State()), t)
      ensures Valid()
    {
      TickKeepsInv(State(), t, None, 1.0);
      now := t;
    }

    method Touch(action: MotionAction, rawX: real, rawY: real) returns (handled: bool)
      requires Valid()
      modifies this
      ensures handled == Consumes(action)
      ensures State() == TouchStep(old(State()), action, rawX, rawY)
      ensures Valid()
    {
      match action
      case ActionDown =>
        drag := DragStart(params.x, params.y, rawX, rawY);
        handled := true;
      case ActionMove =>
        params := Dragged(params, drag, rawX, rawY);
        handled := true;
      case OtherAction(_) =>
        handled := false;
    }

    method Destroy() returns (throws: bool)
      requires Valid()
      modifies this
      ensures throws == DestroyThrows(old(State()))
      ensures State() == Destroyed(old(State()))
      ensures Valid()
    {
      DestroyKeepsInv(State());
      throws := overlayView.Some? && overlayView.value.id !in attached;
      StopBlinking();
      if overlayView.Some? && !throws {
        attached := attached - {overlayView.value.id};
        overlayView := None;
      }
    }
  }
}
