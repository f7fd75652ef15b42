/** The blinking eye overlay service (`OverlayService`): a foreground service that mounts
    a root view holding a coloured eye view and a "hidden" placeholder view, swaps which
    of the two is shown on every fire of a self-re-posting switch runnable, and posts a
    blink reminder notification every 20 minutes from a second self-re-posting runnable.

    Time is a logical clock in milliseconds. Each runnable's pending posts are kept as a
    sequence of due times in posting order; a fire takes the earliest pending post of
    either runnable, as the main looper does, and moves the clock to its due time. */
module Overlay {
  import opened Wrappers
  import opened Text
  import opened Platform
  import opened Reminders
  import opened Window

  const DEFAULT_DURATION_MS := 3000
  const DEFAULT_SIZE_DP: real := 50.0
  const DEFAULT_COLOR := "blue"


  /** The six colours the overlay comes in. */
  datatype Palette = Blue | Purple | Brown | Pink | Green | Grey

  datatype Layout =
    | OverlayRootLayout
    | OverlayViewBlue | OverlayViewPurple | OverlayViewBrown
    | OverlayViewPink | OverlayViewGreen | OverlayViewGrey
    | OverlayViewHidden

  datatype Gif = RawBlue | RawPurple | RawBrown | RawPink | RawGreen | RawGrey

  function PaletteName(p: Palette): string {
    match p
    case Blue => "blue"
    case Purple => "purple"
    case Brown => "brown"
    case Pink => "pink"
    case Green => "green"
    case Grey => "grey"
  }

  function PaletteLayout(p: Palette): Layout {
    match p
    case Blue => OverlayViewBlue
    case Purple => OverlayViewPurple
    case Brown => OverlayViewBrown
    case Pink => OverlayViewPink
    case Green => OverlayViewGreen
    case Grey => OverlayViewGrey
  }

  function PaletteGif(p: Palette): Gif {
    match p
    case Blue => RawBlue
    case Purple => RawPurple
    case Brown => RawBrown
    case Pink => RawPink
    case Green => RawGreen
    case Grey => RawGrey
  }

  const PALETTE: seq<Palette> := [Blue, Purple, Brown, Pink, Green, Grey]

  /** The first colour of `ps` whose name is `name`. */
  function FindPalette(name: string, ps: seq<Palette>): (r: Option<Palette>)
    ensures r.Some? ==> r.value in ps && PaletteName(r.value) == name
    ensures r.None? ==> forall p :: p in ps ==> PaletteName(p) != name
  {
    if ps == [] then None
    else if PaletteName(ps[0]) == name then Some(ps[0])
    else FindPalette(name, ps[1..])
  }

  /** The colour a colour name stands for, in any letter case, with blue for any name
      that is not one of the six; both `when` expressions of the service choose by it. */
  function ResolveColor(color: string): Palette {
    FindPalette(Lower(color), PALETTE).GetOr(Blue)
  }

  /** The eye layout chosen for a colour name in `setupOverlay`. */
  function ColorLayout(color: string): Layout {
    PaletteLayout(ResolveColor(color))
  }

  /** The animated eye chosen for a colour name in `getGifResourceForColor`. */
  function GifResourceForColor(color: string): Gif {
    PaletteGif(ResolveColor(color))
  }

  /** A colour name that is a palette name in any letter case gets that colour's layout
      and animation. */
  lemma PaletteColorResolves(color: string, p: Palette)
    requires Lower(color) == PaletteName(p)
    ensures ResolveColor(color) == p
    ensures ColorLayout(color) == PaletteLayout(p)
    ensures GifResourceForColor(color) == PaletteGif(p)
  {
    assert p in PALETTE;
    var q := ResolveColor(color);
    assert PaletteName(q) == PaletteName(p);
  }

  /** Any other colour name falls back to the blue eye. */
  lemma UnknownColorIsBlue(color: string)
    requires forall p: Palette :: Lower(color) != PaletteName(p)
    ensures ColorLayout(color) == OverlayViewBlue
    ensures GifResourceForColor(color) == RawBlue
  {
  }

  /** The choice depends only on the lower-case form of the name. */
  lemma ColorIgnoresCase(color: string)
    ensures ResolveColor(color) == ResolveColor(Lower(color))
  {
    LowerIdempotent(color);
  }

  /** The due time of the switch runnable's post after `n` fires of one run started at
      `start`: the first post waits the on-duration, and each fire re-posts with the
      off-duration when it has just hidden the eye and the on-duration otherwise. */
  function SwitchDueAt(start: int, on: int, off: int, n: nat): int {
    if n == 0 then DueAfter(start, on)
    else DueAfter(SwitchDueAt(start, on, off, n - 1), if n % 2 == 1 then off else on)
  }

  /** Over one run the switch delays alternate on, off, on, off, ...: after `n` fires the
      pending switch is due after n/2 + 1 on-periods and (n + 1)/2 off-periods. */
  lemma {:induction false} SwitchDueAtClosedForm(start: int, on: int, off: int, n: nat)
    ensures SwitchDueAt(start, on, off, n) == start + (n / 2 + 1) * WaitFor(on) + ((n + 1) / 2) * WaitFor(off)
  {
    if n > 0 {
      SwitchDueAtClosedForm(start, on, off, n - 1);
      var a, b := WaitFor(on), WaitFor(off);
      var k := (n - 1) / 2;
      if n % 2 == 1 {
        assert n / 2 == k && (n + 1) / 2 == k + 1 && n / 2 == (n - 1 + 1) / 2;
        assert (k + 1) * b == k * b + b;
      } else {
        assert n / 2 == k + 1 && (n + 1) / 2 == n / 2;
        assert (k + 2) * a == (k + 1) * a + a;
      }
    }
  }


  /** With 4000 ms on and 4000 ms off the switch fires every 4 seconds: at 4, 8, 12, …
      seconds after the start, hiding the eye at the first, third, … fire. */
  lemma {:induction false} EvenBlinkSchedule(start: int, n: nat)
    ensures SwitchDueAt(start, 4000, 4000, n) == start + 4000 * (n + 1)
  {
    SwitchDueAtClosedForm(start, 4000, 4000, n);
    assert (n / 2 + 1) + (n + 1) / 2 == n + 1;
  }

  datatype View = View(id: nat, layout: Layout, visibility: Visibility)

  /** The views `setupOverlay` inflates: the root frame and its two children, the
      coloured eye and the placeholder. */
  datatype OverlayViews = OverlayViews(root: nat, eye: View, placeholder: View)

  /** Everything the service holds, together with the main looper's clock and the posts
      it has pending for the service's two runnables (due times, in posting order), and
      the root views the window manager has attached. */
  datatype Service = Service(
    now: int,
    switchDue: seq<int>,
    reminderDue: seq<int>,
    onDuration: int,
    offDuration: int,
    showingHidden: bool,
    overlay: Option<OverlayViews>,
    params: LayoutParams,
    drag: DragStart,
    attached: set<nat>,
    nextViewId: nat,
    reminders: seq<nat>)

  /** The service object as the system creates it, before any start command. */
  function Fresh(clock: int): Service {
    Service(clock, [], [], DEFAULT_DURATION_MS, DEFAULT_DURATION_MS, false, None,
            LayoutParams(0, 0, 0), DragStart(0, 0, 0.0, 0.0), {}, 0, [])
  }

  /** `setupOverlay`: a new root holding the colour's eye (visible) and the placeholder
      (gone), placed at the top-right corner 200 dp from the top; when `addViewFails`
      the window manager refused it and the error was swallowed. */
  function Setup(s: Service, sizeInDp: real, color: string, density: real, addViewFails: bool): Service {
    var root := s.nextViewId;
    var inflated :=
      s.(params := LayoutParams(DpToPx(sizeInDp, density), 0, DpToPx(200.0, density)),
         overlay := Some(OverlayViews(root, View(root + 1, ColorLayout(color), Visible),
                                      View(root + 2, OverlayViewHidden, Gone))),
         nextViewId := root + 3);
    ViewAdded(inflated, root, addViewFails)
  }

  /** `windowManager.addView(root, …)` inside a `try` that swallows the failure. */
  function ViewAdded(s: Service, root: nat, fails: bool): Service {
    if fails then s else s.(attached := s.attached + {root})
  }

  /** `onStartCommand`: reads the extras (3000 ms, 3000 ms, 50 dp and "blue" when
      absent), mounts a new overlay, and posts the switch after the on-duration and the
      reminder after 20 minutes. Nothing posted earlier is cancelled and
      `showingHidden` keeps its value. */
  function StartStep(s: Service, intent: Option<Extras>, density: real, addViewFails: bool): Service {
    var configured := s.(onDuration := GetLongExtra(intent, "onDuration", DEFAULT_DURATION_MS),
                         offDuration := GetLongExtra(intent, "offDuration", DEFAULT_DURATION_MS));
    var mounted := Setup(configured, GetFloatExtra(intent, "sizeInDp", DEFAULT_SIZE_DP),
                         GetStringExtra(intent, "color").GetOr(DEFAULT_COLOR), density, addViewFails);
    ReminderPosted(SwitchPosted(mounted, mounted.onDuration), REMINDER_INTERVAL_MS)
  }

  /** `handler.postDelayed(switchRunnable, delay)`. */
  function SwitchPosted(s: Service, delay: int): Service {
    s.(switchDue := s.switchDue + [DueAfter(s.now, delay)])
  }

  /** `reminderHandler.postDelayed(reminderRunnable, delay)`. */
  function ReminderPosted(s: Service, delay: int): Service {
    s.(reminderDue := s.reminderDue + [DueAfter(s.now, delay)])
  }

  /** `toggleVisibility(hidden)`: the placeholder is shown iff `hidden`, the eye otherwise. */
  function Toggled(v: OverlayViews, hidden: bool): OverlayViews {
    v.(eye := v.eye.(visibility := if hidden then Gone else Visible),
       placeholder := v.placeholder.(visibility := if hidden then Visible else Gone))
  }

  /** `switchRunnable`, run for its `i`-th pending post: flips `showingHidden`, shows the
      matching view, and posts itself again after the off-duration when it has just
      hidden the eye and after the on-duration otherwise. */
  function FireSwitchStep(s: Service, i: nat): Service
    requires i < |s.switchDue|
  {
    var d := s.switchDue[i];
    var hidden := !s.showingHidden;
    s.(now := d, showingHidden := hidden,
       overlay := if s.overlay.Some? then Some(Toggled(s.overlay.value, hidden)) else None,
       switchDue := RemoveAt(s.switchDue, i) + [DueAfter(d, if hidden then s.offDuration else s.onDuration)])
  }

  /** `reminderRunnable`, run for its `i`-th pending post: posts a notification whose
      text is `ReminderMessage(pick)`, `pick` being the random choice, and posts itself
      again 20 minutes later. */
  function FireReminderStep(s: Service, i: nat, pick: nat): Service
    requires i < |s.reminderDue| && pick < REMINDER_COUNT
  {
    var d := s.reminderDue[i];
    s.(now := d, reminders := s.reminders + [pick],
       reminderDue := RemoveAt(s.reminderDue, i) + [d + REMINDER_INTERVAL_MS])
  }

  /** The drag listener: a press records where the drag starts, a move places the
      window relative to it. */
  function TouchStep(s: Service, action: MotionAction, rawX: real, rawY: real): Service {
    match action
    case ActionDown => s.(drag := DragStart(s.params.x, s.params.y, rawX, rawY))
    case ActionMove => s.(params := Dragged(s.params, s.drag, rawX, rawY))
    case OtherAction(_) => s
  }

  /** `onDestroy` throws when it removes a root the window manager never accepted. */
  predicate DestroyThrows(s: Service) {
    s.overlay.Some? && s.overlay.value.root !in s.attached
  }

  /** `onDestroy`: cancels every pending post of both runnables, then removes the overlay
      from the window and forgets it; when the removal throws the reference stays. */
  function Destroyed(s: Service): Service {
    var cancelled := s.(switchDue := [], reminderDue := []);
    if s.overlay.Some? && !DestroyThrows(s) then
      cancelled.(attached := s.attached - {s.overlay.value.root}, overlay := None)
    else cancelled
  }

  /** Time passing on the main looper with nothing run: the clock moves on to `t`. */
  function Ticked(s: Service, t: int): Service {
    s.(now := t)
  }

  /** `d` is no later than any pending post of either runnable: the looper runs it next. */
  ghost predicate IsNext(s: Service, d: int) {
    (forall k :: 0 <= k < |s.switchDue| ==> d <= s.switchDue[k]) &&
    (forall k :: 0 <= k < |s.reminderDue| ==> d <= s.reminderDue[k])
  }

  /** What holds in every reachable state: nothing pending lies in the past, the switch
      is pending only while an overlay exists, and view ids are handed out fresh. */
  ghost predicate Inv(s: Service) {
    IsNext(s, s.now) &&
    (s.switchDue != [] ==> s.overlay.Some?) &&
    (forall v :: v in s.attached ==> v < s.nextViewId) &&
    (s.overlay.Some? ==> s.overlay.value.root < s.nextViewId)
  }

  /** The overlay shows the placeholder iff `hidden`, and the eye otherwise. */
  ghost predicate ShowsVariant(s: Service, hidden: bool) {
    s.overlay.Some? &&
    s.overlay.value.eye.visibility == (if hidden then Gone else Visible) &&
    s.overlay.value.placeholder.visibility == (if hidden then Visible else Gone)
  }

  /** Bookkeeping for one run: when it started and how many times each runnable fired. */
  datatype Run = Run(start: int, switchFires: nat, reminderFires: nat)

  /** The state of a single run: one pending switch and one pending reminder, at the
      times this run's delays put them, and the eye hidden after an odd number of
      switches. */
  ghost predicate OneRun(s: Service, r: Run) {
    s.switchDue == [SwitchDueAt(r.start, s.onDuration, s.offDuration, r.switchFires)] &&
    s.showingHidden == (r.switchFires % 2 == 1) && ShowsVariant(s, s.showingHidden) &&
    s.reminderDue == [r.start + REMINDER_INTERVAL_MS * (r.reminderFires + 1)]
  }

  lemma FreshInv(clock: int)
    ensures Inv(Fresh(clock))
  {
  }

  /** A start mounts a root that is not attached yet and keeps the invariant. */
  lemma {:induction false} StartKeepsInv(s: Service, intent: Option<Extras>, density: real, addViewFails: bool)
    requires Inv(s)
    ensures Inv(StartStep(s, intent, density, addViewFails))
    ensures StartStep(s, intent, density, addViewFails).overlay.value.root !in s.attached
    ensures ShowsVariant(StartStep(s, intent, density, addViewFails), false)
    ensures StartStep(s, intent, density, addViewFails).overlay.value.root in StartStep(s, intent, density, addViewFails).attached <==> !addViewFails
  {
    var t := StartStep(s, intent, density, addViewFails);
    forall k | 0 <= k < |t.switchDue| ensures s.now <= t.switchDue[k] {
      if k < |s.switchDue| {
        assert t.switchDue[k] == s.switchDue[k];
      }
    }
    forall k | 0 <= k < |t.reminderDue| ensures s.now <= t.reminderDue[k] {
      if k < |s.reminderDue| {
        assert t.reminderDue[k] == s.reminderDue[k];
      }
    }
  }

  /** Running the earliest pending switch keeps the invariant. */
  lemma {:induction false} FireSwitchKeepsInv(s: Service, i: nat)
    requires Inv(s) && i < |s.switchDue| && IsNext(s, s.switchDue[i])
    ensures Inv(FireSwitchStep(s, i))
  {
    var t := FireSwitchStep(s, i);
    var d := s.switchDue[i];
    forall k | 0 <= k < |t.switchDue| ensures d <= t.switchDue[k] {
      if k < |s.switchDue| - 1 {
        assert t.switchDue[k] == RemoveAt(s.switchDue, i)[k];
      }
    }
  }

  /** Running the earliest pending reminder keeps the invariant. */
  lemma {:induction false} FireReminderKeepsInv(s: Service, i: nat, pick: nat)
    requires Inv(s) && i < |s.reminderDue| && pick < REMINDER_COUNT && IsNext(s, s.reminderDue[i])
    ensures Inv(FireReminderStep(s, i, pick))
  {
    var t := FireReminderStep(s, i, pick);
    var d := s.reminderDue[i];
    forall k | 0 <= k < |t.reminderDue| ensures d <= t.reminderDue[k] {
      if k < |s.reminderDue| - 1 {
        assert t.reminderDue[k] == RemoveAt(s.reminderDue, i)[k];
      }
    }
  }

  /** After `onDestroy` nothing is pending any more, and unless it threw, the overlay is
      gone from the window. */
  lemma DestroyStopsEverything(s: Service)
    requires Inv(s)
    ensures Inv(Destroyed(s))
    ensures Destroyed(s).switchDue == [] && Destroyed(s).reminderDue == []
    ensures !DestroyThrows(s) ==> Destroyed(s).overlay.None?
    ensures s.overlay.Some? ==> s.overlay.value.root !in Destroyed(s).attached
  {
  }

  /** The first start of a fresh service begins a run. */
  lemma FreshStartIsOneRun(clock: int, intent: Option<Extras>, density: real, addViewFails: bool)
    ensures OneRun(StartStep(Fresh(clock), intent, density, addViewFails), Run(clock, 0, 0))
  {
  }

  /** Within a run each switch flips the view shown and re-posts itself at the run's
      schedule. */
  lemma FireSwitchKeepsOneRun(s: Service, r: Run)
    requires OneRun(s, r)
    ensures OneRun(FireSwitchStep(s, 0), r.(switchFires := r.switchFires + 1))
    ensures FireSwitchStep(s, 0).showingHidden == !s.showingHidden
  {
  }

  /** Within a run each reminder re-posts itself 20 minutes after the previous one. */
  lemma FireReminderKeepsOneRun(s: Service, r: Run, pick: nat)
    requires OneRun(s, r) && pick < REMINDER_COUNT
    ensures OneRun(FireReminderStep(s, 0, pick), r.(reminderFires := r.reminderFires + 1))
  {
  }

  /** A reminder never touches the blinking: the views, the flag and the switch's posts
      are as before, and the only trace it leaves is one more notification, whose text
      is one of the pool's. */
  lemma ReminderLeavesBlinkAlone(s: Service, i: nat, pick: nat)
    requires i < |s.reminderDue| && pick < REMINDER_COUNT
    ensures var t := FireReminderStep(s, i, pick);
      t.showingHidden == s.showingHidden && t.overlay == s.overlay && t.switchDue == s.switchDue &&
      t.reminders == s.reminders + [pick] && |t.reminderDue| == |s.reminderDue| &&
      ReminderMessage(pick) in REMINDER_MESSAGES
  {
  }

  /** Letting time pass up to the next post keeps the invariant and any run; a start
      command that arrives then posts its switch and its reminder relative to its own
      arrival, after everything posted before. */
  lemma TickKeepsInv(s: Service, t: int, r: Run, intent: Option<Extras>, density: real, addViewFails: bool)
    requires Inv(s) && s.now <= t && IsNext(s, t)
    ensures Inv(Ticked(s, t))
    ensures OneRun(s, r) ==> OneRun(Ticked(s, t), r)
    ensures var u := StartStep(Ticked(s, t), intent, density, addViewFails);
      u.switchDue == s.switchDue + [DueAfter(t, u.onDuration)] &&
      u.reminderDue == s.reminderDue + [DueAfter(t, REMINDER_INTERVAL_MS)]
  {
  }

  /** A start command that arrives while the placeholder is showing mounts the eye but
      keeps `showingHidden`, so the next switch to fire (which may be one still pending
      from the earlier start) "shows" the eye that is already visible and posts the
      following switch an on-period later: the eye stays on screen for two on-periods in
      a row. */
  lemma {:induction false} RestartWhileHiddenKeepsEyeOnScreen(s: Service, intent: Option<Extras>, density: real, addViewFails: bool, i: nat)
    requires s.showingHidden
    requires i < |StartStep(s, intent, density, addViewFails).switchDue|
    ensures ShowsVariant(FireSwitchStep(StartStep(s, intent, density, addViewFails), i), false)
    ensures |StartStep(s, intent, density, addViewFails).switchDue| == |s.switchDue| + 1
  {
  }

  class OverlayService {
    var now: int
    /** Due times of the pending posts of `switchRunnable` and of `reminderRunnable`. */
    var switchDue: seq<int>
    var reminderDue: seq<int>
    var onDuration: int
    var offDuration: int
    var showingHidden: bool
    /** `overlayRoot`, `overlayVisibleView` and `overlayHiddenView`. */
    var overlay: Option<OverlayViews>
    var params: LayoutParams
    /** `initialX`, `initialY`, `initialTouchX` and `initialTouchY`. */
    var drag: DragStart
    var attached: set<nat>
    var nextViewId: nat
    /** The random picks of the reminder notifications posted so far: the text of each
        is `ReminderMessage(pick)`. */
    var reminders: seq<nat>

    function State(): Service
      reads this
    {
      Service(now, switchDue, reminderDue, onDuration, offDuration, showingHidden, overlay,
              params, drag, attached, nextViewId, reminders)
    }

    ghost predicate Valid()
      reads this
    {
      Inv(State())
    }

    constructor (clock: int)
      ensures State() == Fresh(clock) && Valid()
    {
      now := clock;
      switchDue, reminderDue := [], [];
      onDuration, offDuration := DEFAULT_DURATION_MS, DEFAULT_DURATION_MS;
      showingHidden := false;
      overlay := None;
      params := LayoutParams(0, 0, 0);
      drag := DragStart(0, 0, 0.0, 0.0);
      attached, nextViewId := {}, 0;
      reminders := [];
    }

    method SetupOverlay(sizeInDp: real, color: string, density: real, addViewFails: bool)
      modifies this
      ensures State() == Setup(old(State()), sizeInDp, color, density, addViewFails)
    {
      params := LayoutParams(DpToPx(sizeInDp, density), 0, DpToPx(200.0, density));
      var root := nextViewId;
      overlay := Some(OverlayViews(root, View(root + 1, ColorLayout(color), Visible),
                                   View(root + 2, OverlayViewHidden, Gone)));
      nextViewId := root + 3;
      AddView(root, addViewFails);
    }

    method AddView(root: nat, fails: bool)
      modifies this
      ensures State() == ViewAdded(old(State()), root, fails)
    {
      if !fails {
        attached := attached + {root};
      }
    }

    method Start(intent: Option<Extras>, density: real, addViewFails: bool)
      requires Valid()
      modifies this
      ensures State() == StartStep(old(State()), intent, density, addViewFails)
      ensures Valid()
    {
      StartKeepsInv(State(), intent, density, addViewFails);
      onDuration := GetLongExtra(intent, "onDuration", DEFAULT_DURATION_MS);
      offDuration := GetLongExtra(intent, "offDuration", DEFAULT_DURATION_MS);
      var sizeInDp := GetFloatExtra(intent, "sizeInDp", DEFAULT_SIZE_DP);
      var color := GetStringExtra(intent, "color").GetOr(DEFAULT_COLOR);
      SetupOverlay(sizeInDp, color, density, addViewFails);
      PostSwitch(onDuration);
      PostReminder(REMINDER_INTERVAL_MS);
    }

    method PostSwitch(delay: int)
      modifies this
      ensures State() == SwitchPosted(old(State()), delay)
    {
      switchDue := switchDue + [DueAfter(now, delay)];
    }

    method PostReminder(delay: int)
      modifies this
      ensures State() == ReminderPosted(old(State()), delay)
    {
      reminderDue := reminderDue + [DueAfter(now, delay)];
    }

    method FireSwitch(i: nat)
      requires Valid() && i < |switchDue| && IsNext(State(), switchDue[i])
      modifies this
      ensures State() == FireSwitchStep(old(State()), i)
      ensures Valid()
    {
      FireSwitchKeepsInv(State(), i);
      var d := switchDue[i];
      now := d;
      showingHidden := !showingHidden;
      if overlay.Some? {
        overlay := Some(Toggled(overlay.value, showingHidden));
      }
      var delay := if showingHidden then offDuration else onDuration;
      switchDue := RemoveAt(switchDue, i) + [DueAfter(d, delay)];
    }

    method FireReminder(i: nat, pick: nat)
      requires Valid() && i < |reminderDue| && pick < REMINDER_COUNT && IsNext(State(), reminderDue[i])
      modifies this
      ensures State() == FireReminderStep(old(State()), i, pick)
      ensures Valid()
    {
      FireReminderKeepsInv(State(), i, pick);
      var d := reminderDue[i];
      now := d;
      reminders := reminders + [pick];
      reminderDue := RemoveAt(reminderDue, i) + [d + REMINDER_INTERVAL_MS];
    }

    /** Time passes on the main looper up to `t`, before the next pending post. */
    method Tick(t: int)
      requires Valid() && now <= t && IsNext(State(), t)
      modifies this
      ensures State() == Ticked(old(State()), t)
      ensures Valid()
    {
      TickKeepsInv(State(), t, Run(0, 0, 0), None, 1.0, false);
      now := t;
    }

    method Touch(action: MotionAction, rawX: real, rawY: real) returns (handled: bool)
      requires Valid()
      modifies this
      ensures handled == Consumes(action)
      ensures State() == TouchStep(old(State()), action, rawX, rawY)
      ensures Valid()
    {
      match action
      case ActionDown =>
        drag := DragStart(params.x, params.y, rawX, rawY);
        handled := true;
      case ActionMove =>
        params := Dragged(params, drag, rawX, rawY);
        handled := true;
      case OtherAction(_) =>
        handled := false;
    }

    method Destroy() returns (throws: bool)
      requires Valid()
      modifies this
      ensures throws == DestroyThrows(old(State()))
      ensures State() == Destroyed(old(State()))
      ensures Valid()
    {
      DestroyStopsEverything(State());
      switchDue, reminderDue := [], [];
      throws := false;
      if overlay.Some? {
        if overlay.value.root in attached {
          attached := attached - {overlay.value.root};
          overlay := None;
        } else {
          throws := true;
        }
      }
    }
  }
}
