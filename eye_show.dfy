/** The older control panel (`EyeShow`): the same six settings as the settings screen,
    but hiding goes to all four native overlay modules, showing goes to one module by
    name, the save also records which module is active, and mounting restarts the
    overlay when the stored switch says it was on. */
module EyeShowPanel {
  import opened Wrappers
  import opened StoredSettings

  const DEFAULT_DURATION_MS := 4 * 1000
  const KEY_ACTIVE_OVERLAY := "@activeOverlay"
  const ACTIVE_OVERLAY := "Overlay"

  /** The four native overlay modules, some of which may be missing from the build. */
  datatype NativeModule = OverlayModule | OverlayCyanModule | OverlayBlueModule | OverlayLavenderModule

  /** `overlayModules`, in its order. */
  const MODULES: seq<NativeModule> := [OverlayModule, OverlayCyanModule, OverlayBlueModule, OverlayLavenderModule]

  /** The key each module has in `overlayModules`. */
  function ModuleName(m: NativeModule): string {
    match m
    case OverlayModule => "Overlay"
    case OverlayCyanModule => "OverlayCyan"
    case OverlayBlueModule => "OverlayBlue"
    case OverlayLavenderModule => "OverlayLavender"
  }

  lemma EveryModuleListed(m: NativeModule)
    ensures m in MODULES
  {
  }

  /** `overlayModules[name]`, when that module is present. */
  function Lookup(name: string, present: set<NativeModule>): (m: Option<NativeModule>)
    ensures m.Some? ==> m.value in present && ModuleName(m.value) == name
    ensures m.None? ==> forall k :: k in present ==> ModuleName(k) != name
  {
    if name == "Overlay" && OverlayModule in present then Some(OverlayModule)
    else if name == "OverlayCyan" && OverlayCyanModule in present then Some(OverlayCyanModule)
    else if name == "OverlayBlue" && OverlayBlueModule in present then Some(OverlayBlueModule)
    else if name == "OverlayLavender" && OverlayLavenderModule in present then Some(OverlayLavenderModule)
    else None
  }

  /** A value passed to a native method: a number, or the raw stored text (or `null`)
      that the mount's restart passes for the durations. */
  datatype Arg = NumArg(n: JsNum) | TextArg(text: string) | NullArg

  datatype Call =
    | HideCall(target: NativeModule)
    | ShowCall(target: NativeModule, onDuration: Arg, offDuration: Arg, size: JsNum, color: string)

  /** The hide calls the `forEach` of `hideOverlay` issues over `ms`: one per module
      that is present, in order. */
  function HideCalls(ms: seq<NativeModule>, present: set<NativeModule>): (r: seq<Call>)
    ensures forall i :: 0 <= i < |r| ==> r[i].HideCall?
    ensures forall m :: HideCall(m) in r <==> m in ms && m in present
  {
    if ms == [] then []
    else
      var last := ms[|ms| - 1];
      assert forall m :: m in ms <==> m in ms[..|ms| - 1] || m == last;
      HideCalls(ms[..|ms| - 1], present) + (if last in present then [HideCall(last)] else [])
  }

  /** The `forEach` issues the calls of a longer list one part after the other: each
      present module is hidden once, in list order. */
  lemma {:induction false} HideCallsAppend(a: seq<NativeModule>, b: seq<NativeModule>, present: set<NativeModule>)
    ensures HideCalls(a + b, present) == HideCalls(a, present) + HideCalls(b, present)
    decreases |b|
  {
    if b == [] {
      assert a + b == a;
    } else {
      var ab, init, last := a + b, b[..|b| - 1], b[|b| - 1];
      var tail := if last in present then [HideCall(last)] else [];
      assert ab[..|ab| - 1] == a + init && ab[|ab| - 1] == last;
      assert HideCalls(ab, present) == HideCalls(a + init, present) + tail;
      assert HideCalls(b, present) == HideCalls(init, present) + tail;
      HideCallsAppend(a, init, present);
    }
  }

  /** `hideOverlay()`. */
  function HideAll(present: set<NativeModule>): seq<Call> {
    HideCalls(MODULES, present)
  }

  /** `hideOverlay` reaches every module that is present and no other. */
  lemma HideAllReachesEveryModule(present: set<NativeModule>, m: NativeModule)
    ensures HideCall(m) in HideAll(present) <==> m in present
    ensures forall i :: 0 <= i < |HideAll(present)| ==> HideAll(present)[i].HideCall?
  {
    EveryModuleListed(m);
  }

  /** `showOverlay(name, …)`: one show on the named module with the screen's colour, or
      nothing when no module of that name is present. */
  function ShowCalls(name: string, on: Arg, off: Arg, size: JsNum, color: string,
                     present: set<NativeModule>): (r: seq<Call>)
    ensures |r| <= 1
    ensures r == [] <==> forall k :: k in present ==> ModuleName(k) != name
    ensures r != [] ==> r[0] == ShowCall(r[0].target, on, off, size, color) && ModuleName(r[0].target) == name
  {
    match Lookup(name, present)
    case None => []
    case Some(m) => [ShowCall(m, on, off, size, color)]
  }

  function Defaults(): Prefs {
    Prefs(false, false, Whole(DEFAULT_DURATION_MS), Whole(DEFAULT_DURATION_MS), Whole(DEFAULT_SIZE), DEFAULT_COLOR)
  }

  /** What the user does: the two toggle buttons pass their new position. */
  datatype Event =
    | AlwaysOnToggle(alwaysOnNow: bool)
    | DefaultOverlayToggle(isOn: bool)
    | OnDurationChange(onMs: int)
    | OffDurationChange(offMs: int)
    | ColorChange(color: string)
    | SizeChange(size: int)

  /** A handler's effect: the new settings, the native calls in order, and the
      settings its `saveState` writes. */
  datatype Reaction = Reaction(prefs: Prefs, issued: seq<Call>, saved: Prefs)

  /** `if (overlayOn) { hideOverlay(); … }` */
  function HideIfOn(p: Prefs, present: set<NativeModule>): seq<Call> {
    if p.overlayOn then HideAll(present) else []
  }

  function React(p: Prefs, e: Event, present: set<NativeModule>): Reaction {
    match e
    case AlwaysOnToggle(isOn) =>
      var q := p.(alwaysOn := isOn, overlayOn := false);
      Reaction(q, HideIfOn(p, present), q)
    case DefaultOverlayToggle(isOn) =>
      var q := p.(overlayOn := isOn);
      var issued :=
        if !isOn then HideAll(present)
        else if p.alwaysOn then
          ShowCalls(ACTIVE_OVERLAY, NumArg(Whole(ALWAYS_ON_MS)), NumArg(Whole(ALWAYS_OFF_MS)), p.size, p.color, present)
        else ShowCalls(ACTIVE_OVERLAY, NumArg(p.onDuration), NumArg(p.offDuration), p.size, p.color, present);
      Reaction(q, issued, q)
    case OnDurationChange(v) =>
      var q := p.(onDuration := Whole(v), overlayOn := false);
      Reaction(q, HideIfOn(p, present), q)
    case OffDurationChange(v) =>
      var q := p.(offDuration := Whole(v), overlayOn := false);
      Reaction(q, HideIfOn(p, present), q)
    case ColorChange(c) =>
      Reaction(p.(color := c, overlayOn := false), HideIfOn(p, present), p.(color := c))
    case SizeChange(v) =>
      var q := p.(size := Whole(v));
      var issued :=
        if p.overlayOn then
          HideAll(present) + ShowCalls(ACTIVE_OVERLAY, NumArg(p.onDuration), NumArg(p.offDuration), q.size, p.color, present)
        else [];
      Reaction(q, issued, q)
  }

  /** The default toggle shows the `Overlay` module with an hour on and a second off in
      Always-On mode and with the chosen durations otherwise, hides every module when
      switched off, and saves its new position. */
  lemma ToggleShowsOrHides(p: Prefs, isOn: bool, present: set<NativeModule>)
    requires OverlayModule in present
    ensures var r := React(p, DefaultOverlayToggle(isOn), present);
      r.prefs.overlayOn == isOn && r.saved == r.prefs &&
      (isOn && p.alwaysOn ==>
         r.issued == [ShowCall(OverlayModule, NumArg(Whole(3600000)), NumArg(Whole(1000)), p.size, p.color)]) &&
      (isOn && !p.alwaysOn ==>
         r.issued == [ShowCall(OverlayModule, NumArg(p.onDuration), NumArg(p.offDuration), p.size, p.color)]) &&
      (!isOn ==> r.issued == HideAll(present))
  {
  }

  /** Toggling Always-On or picking a duration stops a running overlay on every module,
      and the switch is saved off in every branch. */
  lemma SettingChangeStops(p: Prefs, e: Event, present: set<NativeModule>)
    requires e.AlwaysOnToggle? || e.OnDurationChange? || e.OffDurationChange?
    ensures var r := React(p, e, present);
      !r.prefs.overlayOn && !r.saved.overlayOn && r.saved == r.prefs &&
      r.issued == (if p.overlayOn then HideAll(present) else [])
  {
  }

  /** A colour change stops a running overlay too, but saves the switch as it was
      before the change: after a change while running, storage says on and the screen
      says off. */
  lemma ColorChangeSavesOldSwitch(p: Prefs, c: string, present: set<NativeModule>)
    ensures var r := React(p, ColorChange(c), present);
      !r.prefs.overlayOn && r.saved.overlayOn == p.overlayOn &&
      r.saved == r.prefs.(overlayOn := p.overlayOn) && r.prefs.color == c &&
      r.issued == (if p.overlayOn then HideAll(present) else [])
  {
  }

  /** A size change while running hides every module and shows `Overlay` again with the
      new size and the chosen durations, whatever Always-On says. */
  lemma SizeChangeRestarts(p: Prefs, v: int, present: set<NativeModule>)
    requires p.overlayOn && OverlayModule in present
    ensures var r := React(p, SizeChange(v), present);
      r.prefs.overlayOn && r.prefs.size == Whole(v) && r.saved == r.prefs &&
      r.issued == HideAll(present) + [ShowCall(OverlayModule, NumArg(p.onDuration), NumArg(p.offDuration), Whole(v), p.color)]
  {
  }

  /** The panel's state, with the app's storage and the native calls issued so far. */
  datatype Panel = Panel(prefs: Prefs, storage: Storage, calls: seq<Call>)

  /** `saveState`: the six settings and `@activeOverlay` = 'Overlay' in one `multiSet`;
      a failure writes nothing. */
  function SavedPanel(storage: Storage, p: Prefs, fails: bool): (st: Storage)
    ensures !fails ==> KEY_ACTIVE_OVERLAY in st && st[KEY_ACTIVE_OVERLAY] == ACTIVE_OVERLAY
    ensures !fails ==> forall k :: k != KEY_ACTIVE_OVERLAY ==>
      (k in st <==> k in Saved(storage, p, false)) && (k in st ==> st[k] == Saved(storage, p, false)[k])
    ensures fails ==> st == storage
  {
    if fails then storage else Saved(storage, p, false)[KEY_ACTIVE_OVERLAY := ACTIVE_OVERLAY]
  }

  function Handled(s: Panel, e: Event, present: set<NativeModule>, saveFails: bool): Panel {
    var r := React(s.prefs, e, present);
    Panel(r.prefs, SavedPanel(s.storage, r.saved, saveFails), s.calls + r.issued)
  }

  /** The stored text of a key as the restart passes it: the text, or `null`. */
  function RawArg(storage: Storage, key: string): Arg {
    if key in storage then TextArg(storage[key]) else NullArg
  }

  /** The restart of the mount effect when the stored switch is exactly 'true': hide
      every module, then show `Overlay` with Always-On timings or with the stored
      duration texts as they are, the stored size, and the colour of the first render. */
  function Restart(storage: Storage, color: string, present: set<NativeModule>): seq<Call> {
    var size := NumOr(storage, KEY_OVERLAY_SIZE, DEFAULT_SIZE);
    if KEY_OVERLAY_ON in storage && storage[KEY_OVERLAY_ON] == "true" then
      HideAll(present) +
      (if KEY_ALWAYS_ON in storage && storage[KEY_ALWAYS_ON] == "true" then
         ShowCalls(ACTIVE_OVERLAY, NumArg(Whole(ALWAYS_ON_MS)), NumArg(Whole(ALWAYS_OFF_MS)), size, color, present)
       else
         ShowCalls(ACTIVE_OVERLAY, RawArg(storage, KEY_ON_DURATION), RawArg(storage, KEY_OFF_DURATION), size, color, present))
    else []
  }

  /** The mount effect. The setters run one by one, so a stored Always-On text that does
      not parse stops it after the switch is already set; a stored switch that does not
      parse, or a failed read, changes nothing. */
  function Restored(s: Panel, present: set<NativeModule>, readFails: bool): Panel {
    var st := s.storage;
    var on := Present(st, KEY_OVERLAY_ON);
    var overlayOn := if on.Some? then ParseBool(on.value) else Some(false);
    var always := Present(st, KEY_ALWAYS_ON);
    var alwaysOn := if always.Some? then ParseBool(always.value) else Some(false);
    if readFails || overlayOn.None? then s
    else if alwaysOn.None? then s.(prefs := s.prefs.(overlayOn := overlayOn.value))
    else
      var p := Prefs(overlayOn.value, alwaysOn.value,
                     NumOr(st, KEY_ON_DURATION, DEFAULT_DURATION_MS), NumOr(st, KEY_OFF_DURATION, DEFAULT_DURATION_MS),
                     NumOr(st, KEY_OVERLAY_SIZE, DEFAULT_SIZE), Present(st, KEY_OVERLAY_COLOR).GetOr(DEFAULT_COLOR));
      Panel(p, st, s.calls + Restart(st, s.prefs.color, present))
  }

  /** With nothing stored the mount keeps the defaults and starts nothing. */
  lemma RestoredFromEmpty(s: Panel, present: set<NativeModule>)
    requires s.storage == map[]
    ensures Restored(s, present, false).prefs == Defaults()
    ensures Restored(s, present, false).calls == s.calls
  {
  }

  /** When both stored switches parse, the mount sets the same settings as the
      settings screen's load (with this panel's default durations). */
  lemma RestoredAsLoaded(s: Panel, present: set<NativeModule>)
    requires Loaded(s.storage, DEFAULT_DURATION_MS).Some?
    ensures Restored(s, present, false).prefs == Loaded(s.storage, DEFAULT_DURATION_MS).value
    ensures Restored(s, present, false).calls == s.calls + Restart(s.storage, s.prefs.color, present)
  {
  }

  /** With the `Overlay` module present, a stored switch of exactly 'true' makes the
      restart issue calls. */
  lemma RestartWhenSwitchOn(storage: Storage, color: string, present: set<NativeModule>)
    requires OverlayModule in present && KEY_OVERLAY_ON in storage && storage[KEY_OVERLAY_ON] == "true"
    ensures Restart(storage, color, present) != []
  {
    HideAllReachesEveryModule(present, OverlayModule);
  }

  /** `@activeOverlay` is not one of the six settings, so the load does not see it. */
  lemma LoadedIgnoresActiveOverlay(storage: Storage, v: string, d: int)
    ensures Loaded(storage[KEY_ACTIVE_OVERLAY := v], d) == Loaded(storage, d)
  {
    var st := storage[KEY_ACTIVE_OVERLAY := v];
    assert Present(st, KEY_OVERLAY_ON) == Present(storage, KEY_OVERLAY_ON);
    assert Present(st, KEY_ALWAYS_ON) == Present(storage, KEY_ALWAYS_ON);
    assert Present(st, KEY_OVERLAY_COLOR) == Present(storage, KEY_OVERLAY_COLOR);
    assert NumOr(st, KEY_ON_DURATION, d) == NumOr(storage, KEY_ON_DURATION, d);
    assert NumOr(st, KEY_OFF_DURATION, d) == NumOr(storage, KEY_OFF_DURATION, d);
    assert NumOr(st, KEY_OVERLAY_SIZE, DEFAULT_SIZE) == NumOr(storage, KEY_OVERLAY_SIZE, DEFAULT_SIZE);
  }

  /** After any handler except a colour change, a successful save lets a remount
      restore exactly the panel's settings, and (with the `Overlay` module present) the
      remount restarts the overlay exactly when the panel's switch is on. */
  lemma {:induction false} RemountRestoresSettings(s: Panel, e: Event, present: set<NativeModule>, later: Panel)
    requires !e.ColorChange? && React(s.prefs, e, present).prefs.color != "" && OverlayModule in present
    requires later.storage == Handled(s, e, present, false).storage
    ensures Restored(later, present, false).prefs == Handled(s, e, present, false).prefs
    ensures Handled(s, e, present, false).prefs.overlayOn <==> Restart(later.storage, later.prefs.color, present) != []
  {
    var h := Handled(s, e, present, false);
    var saved := Saved(s.storage, h.prefs, false);
    LoadedAfterSaved(s.storage, h.prefs, DEFAULT_DURATION_MS);
    LoadedIgnoresActiveOverlay(saved, ACTIVE_OVERLAY, DEFAULT_DURATION_MS);
    RestoredAsLoaded(later, present);
    SavedReadsBack(s.storage, h.prefs);
    assert later.storage[KEY_OVERLAY_ON] == BoolText(h.prefs.overlayOn);
    HideAllReachesEveryModule(present, OverlayModule);
  }

  /** A colour change while running leaves the switch saved on: a remount shows the
      overlay again although the panel had just stopped it. */
  lemma {:induction false} ColorChangeRestartsOnRemount(s: Panel, c: string, present: set<NativeModule>, later: Panel)
    requires s.prefs.overlayOn && c != "" && OverlayModule in present
    requires later.storage == Handled(s, ColorChange(c), present, false).storage
    ensures !Handled(s, ColorChange(c), present, false).prefs.overlayOn
    ensures Restored(later, present, false).prefs.overlayOn
    ensures Restored(later, present, false).calls == later.calls + Restart(later.storage, later.prefs.color, present)
    ensures Restart(later.storage, later.prefs.color, present) != []
  {
    assert Handled(s, ColorChange(c), present, false).prefs == s.prefs.(color := c, overlayOn := false);
    ColorChangeSavesSwitchOn(s, c, present, later.storage);
    RestoredAsLoaded(later, present);
    RestartWhenSwitchOn(later.storage, later.prefs.color, present);
  }

  /** What a colour change while running saves: the old switch position (on) with the
      new colour, which the next load reads back. */
  lemma ColorChangeSavesSwitchOn(s: Panel, c: string, present: set<NativeModule>, storage: Storage)
    requires s.prefs.overlayOn && c != ""
    requires storage == Handled(s, ColorChange(c), present, false).storage
    ensures Loaded(storage, DEFAULT_DURATION_MS) == Some(s.prefs.(color := c))
    ensures KEY_OVERLAY_ON in storage && storage[KEY_OVERLAY_ON] == "true"
  {
    var saved := s.prefs.(color := c);
    var st := Saved(s.storage, saved, false);
    assert storage == st[KEY_ACTIVE_OVERLAY := ACTIVE_OVERLAY];
    LoadedAfterSaved(s.storage, saved, DEFAULT_DURATION_MS);
    LoadedIgnoresActiveOverlay(st, ACTIVE_OVERLAY, DEFAULT_DURATION_MS);
    SavedReadsBack(s.storage, saved);
  }

  class EyeShow {
    const present: set<NativeModule>
    var onDuration: JsNum
    var offDuration: JsNum
    var overlayOn: bool
    var alwaysOn: bool
    var overlaySize: JsNum
    var overlayColor: string
    var storage: Storage
    var calls: seq<Call>

    function Current(): Prefs
      reads this
    {
      Prefs(overlayOn, alwaysOn, onDuration, offDuration, overlaySize, overlayColor)
    }

    function State(): Panel
      reads this
    {
      Panel(Current(), storage, calls)
    }

    constructor (modules: set<NativeModule>, stored: Storage)
      ensures present == modules && State() == Panel(Defaults(), stored, [])
    {
      present := modules;
      onDuration, offDuration := Whole(DEFAULT_DURATION_MS), Whole(DEFAULT_DURATION_MS);
      overlayOn, alwaysOn := false, false;
      overlaySize, overlayColor := Whole(DEFAULT_SIZE), DEFAULT_COLOR;
      storage, calls := stored, [];
    }

    /** `hideOverlay`: the `forEach` over the four modules. */
    method HideOverlay()
      modifies this
      ensures State() == old(State()).(calls := old(calls) + HideAll(present))
    {
      for i := 0 to |MODULES|
        invariant State() == old(State()).(calls := old(calls) + HideCalls(MODULES[..i], present))
      {
        assert MODULES[..i + 1][..i] == MODULES[..i];
        if MODULES[i] in present {
          calls := calls + [HideCall(MODULES[i])];
        }
      }
      assert MODULES[..|MODULES|] == MODULES;
    }

    /** `showOverlay(name, onDur, offDur, size)` with the current colour. */
    method ShowOverlay(name: string, onDur: Arg, offDur: Arg, size: JsNum)
      modifies this
      ensures State() == old(State()).(calls := old(calls) + ShowCalls(name, onDur, offDur, size, overlayColor, present))
    {
      var m := Lookup(name, present);
      if m.None? {
        return;
      }
      calls := calls + [ShowCall(m.value, onDur, offDur, size, overlayColor)];
    }

    method SaveState(p: Prefs, fails: bool)
      modifies this
      ensures State() == old(State()).(storage := SavedPanel(old(storage), p, fails))
    {
      storage := SavedPanel(storage, p, fails);
    }

    /** The mount effect; `readFails` says whether `Promise.all` rejected. */
    method Mount(readFails: bool)
      modifies this
      ensures State() == Restored(old(State()), present, readFails)
    {
      if readFails {
        return;
      }
      var on := Present(storage, KEY_OVERLAY_ON);
      var parsedOn := if on.Some? then ParseBool(on.value) else Some(false);
      if parsedOn.None? {
        return;
      }
      overlayOn := parsedOn.value;
      var always := Present(storage, KEY_ALWAYS_ON);
      var parsedAlways := if always.Some? then ParseBool(always.value) else Some(false);
      if parsedAlways.None? {
        return;
      }
      var firstColor := overlayColor;
      alwaysOn := parsedAlways.value;
      onDuration := NumOr(storage, KEY_ON_DURATION, DEFAULT_DURATION_MS);
      offDuration := NumOr(storage, KEY_OFF_DURATION, DEFAULT_DURATION_MS);
      overlaySize := NumOr(storage, KEY_OVERLAY_SIZE, DEFAULT_SIZE);
      overlayColor := Present(storage, KEY_OVERLAY_COLOR).GetOr(DEFAULT_COLOR);
      calls := calls + Restart(storage, firstColor, present);
    }

    method HandleAlwaysOnToggle(isOn: bool, saveFails: bool)
      modifies this
      ensures State() == Handled(old(State()), AlwaysOnToggle(isOn), present, saveFails)
    {
      alwaysOn := isOn;
      StopAndSave(saveFails);
    }

    /** The shared tail of the Always-On and duration handlers. */
    method StopAndSave(saveFails: bool)
      modifies this
      ensures var q := old(Current()).(overlayOn := false);
        State() == Panel(q, SavedPanel(old(storage), q, saveFails), old(calls) + HideIfOn(old(Current()), present))
    {
      if overlayOn {
        HideOverlay();
        overlayOn := false;
      }
      SaveState(Current(), saveFails);
    }

    method HandleColorChange(color: string, saveFails: bool)
      modifies this
      ensures State() == Handled(old(State()), ColorChange(color), present, saveFails)
    {
      var wasOn := overlayOn;
      overlayColor := color;
      if overlayOn {
        HideOverlay();
        overlayOn := false;
      }
      SaveState(Current().(overlayOn := wasOn), saveFails);
    }

    method HandleDefaultOverlayToggle(isOn: bool, saveFails: bool)
      modifies this
      ensures State() == Handled(old(State()), DefaultOverlayToggle(isOn), present, saveFails)
    {
      if !isOn {
        HideOverlay();
      } else if alwaysOn {
        ShowOverlay(ACTIVE_OVERLAY, NumArg(Whole(60 * 60 * 1000)), NumArg(Whole(1000)), overlaySize);
      } else {
        ShowOverlay(ACTIVE_OVERLAY, NumArg(onDuration), NumArg(offDuration), overlaySize);
      }
      overlayOn := isOn;
      SaveState(Current(), saveFails);
    }

    method HandleOnDurationChange(value: int, saveFails: bool)
      modifies this
      ensures State() == Handled(old(State()), OnDurationChange(value), present, saveFails)
    {
      onDuration := Whole(value);
      StopAndSave(saveFails);
    }

    method HandleOffDurationChange(value: int, saveFails: bool)
      modifies this
      ensures State() == Handled(old(State()), OffDurationChange(value), present, saveFails)
    {
      offDuration := Whole(value);
      StopAndSave(saveFails);
    }

    method HandleSizeChange(value: int, saveFails: bool)
      modifies this
      ensures State() == Handled(old(State()), SizeChange(value), present, saveFails)
    {
      overlaySize := Whole(value);
      if overlayOn {
        HideOverlay();
        ShowOverlay(ACTIVE_OVERLAY, NumArg(onDuration), NumArg(offDuration), Whole(value));
      }
      SaveState(Current(), saveFails);
    }
  }
}
