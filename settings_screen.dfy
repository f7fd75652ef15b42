/** The settings screen (`SettingsScreen`): six settings, the switches and pickers that
    change them, the native `Overlay` module's show and hide calls each change issues,
    and the save of all six settings after every change. */
module Settings {
  import opened Wrappers
  import opened StoredSettings
  import Overlay

  const DEFAULT_DURATION_MS := 5 * 60 * 1000

  /** The hex code of the swatch shown when the colour is not a palette value. */
  const FALLBACK_HEX := "#3B82F6"

  /** A call into the native `Overlay` module, with the numbers as JavaScript holds them. */
  datatype Call = HideCall | ShowCall(onDuration: JsNum, offDuration: JsNum, size: JsNum, color: string)

  /** What the user does on the screen: a switch, a picker or the size slider. */
  datatype Event =
    | BlinkBuddyToggle
    | AlwaysOnToggle
    | OnDurationChange(onMs: int)
    | OffDurationChange(offMs: int)
    | ColorChange(color: string)
    | SizeChange(size: int)

  /** The settings before anything is loaded. */
  function Defaults(): Prefs {
    Prefs(false, false, Whole(DEFAULT_DURATION_MS), Whole(DEFAULT_DURATION_MS), Whole(DEFAULT_SIZE), DEFAULT_COLOR)
  }

  /** A handler's effect: the new settings, and the native calls in the order issued. */
  datatype Reaction = Reaction(prefs: Prefs, issued: seq<Call>)

  /** The show of `handleBlinkBuddyToggle`: an hour on and a second off in Always-On
      mode, the chosen durations otherwise. */
  function ShowChosen(p: Prefs): Call {
    if p.alwaysOn then ShowCall(Whole(ALWAYS_ON_MS), Whole(ALWAYS_OFF_MS), p.size, p.color)
    else ShowCall(p.onDuration, p.offDuration, p.size, p.color)
  }

  /** `if (overlayOn) { hideOverlay(); setOverlayOn(false); }` */
  function Stopped(p: Prefs): Reaction {
    Reaction(p.(overlayOn := false), if p.overlayOn then [HideCall] else [])
  }

  /** What each handler does to the settings and which calls it issues. */
  function React(p: Prefs, e: Event): Reaction {
    match e
    case BlinkBuddyToggle =>
      if !p.overlayOn then Reaction(p.(overlayOn := true), [ShowChosen(p)])
      else Reaction(p.(overlayOn := false), [HideCall])
    case AlwaysOnToggle => Stopped(p.(alwaysOn := !p.alwaysOn))
    case OnDurationChange(v) => Stopped(p.(onDuration := Whole(v)))
    case OffDurationChange(v) => Stopped(p.(offDuration := Whole(v)))
    case ColorChange(c) => Stopped(p.(color := c))
    case SizeChange(v) =>
      var q := p.(size := Whole(v));
      Reaction(q, if p.overlayOn then [HideCall, ShowCall(p.onDuration, p.offDuration, q.size, q.color)] else [])
  }

  /** The last call a handler issued is a show. */
  predicate EndsShowing(issued: seq<Call>) {
    issued != [] && issued[|issued| - 1].ShowCall?
  }

  /** After every handler the overlay switch is on exactly when the handler's last call
      was a show, and that show carries the current size and colour; a handler that
      turns the switch off has hidden the overlay. */
  lemma OnIffLastCallShows(p: Prefs, e: Event)
    ensures var r := React(p, e);
      (r.prefs.overlayOn <==> EndsShowing(r.issued)) &&
      (EndsShowing(r.issued) ==>
         r.issued[|r.issued| - 1].size == r.prefs.size && r.issued[|r.issued| - 1].color == r.prefs.color) &&
      (p.overlayOn && !r.prefs.overlayOn ==> HideCall in r.issued)
  {
  }

  /** Switching BlinkBuddy on shows with an hour on and a second off when Always-On is
      set and with the chosen durations otherwise; switching it off only hides. */
  lemma ToggleShowsOrHides(p: Prefs)
    ensures var r := React(p, BlinkBuddyToggle);
      r.prefs.overlayOn == !p.overlayOn &&
      (!p.overlayOn && p.alwaysOn ==> r.issued == [ShowCall(Whole(3600000), Whole(1000), p.size, p.color)]) &&
      (!p.overlayOn && !p.alwaysOn ==> r.issued == [ShowCall(p.onDuration, p.offDuration, p.size, p.color)]) &&
      (p.overlayOn ==> r.issued == [HideCall])
  {
  }

  /** Toggling Always-On or picking a duration or a colour turns the overlay off (hiding
      it when it was on) and changes that one setting. */
  lemma SettingChangeStops(p: Prefs, e: Event)
    requires e.AlwaysOnToggle? || e.OnDurationChange? || e.OffDurationChange? || e.ColorChange?
    ensures var r := React(p, e);
      !r.prefs.overlayOn && r.issued == (if p.overlayOn then [HideCall] else []) &&
      r.prefs.size == p.size &&
      (e.AlwaysOnToggle? <==> r.prefs.alwaysOn != p.alwaysOn) &&
      (r.prefs.onDuration == if e.OnDurationChange? then Whole(e.onMs) else p.onDuration) &&
      (r.prefs.offDuration == if e.OffDurationChange? then Whole(e.offMs) else p.offDuration) &&
      (r.prefs.color == if e.ColorChange? then e.color else p.color)
  {
  }

  /** A size change restarts a running overlay with the new size, keeping it on; the
      restart passes the chosen durations even in Always-On mode. */
  lemma SizeChangeRestarts(p: Prefs, v: int)
    requires p.overlayOn
    ensures var r := React(p, SizeChange(v));
      r.prefs.overlayOn && r.prefs.size == Whole(v) &&
      r.issued == [HideCall, ShowCall(p.onDuration, p.offDuration, Whole(v), p.color)]
  {
  }

  /** The screen's state, with the app's storage and every native call issued so far. */
  datatype Screen = Screen(prefs: Prefs, storage: Storage, calls: seq<Call>)

  /** A handler followed by its `saveState` of the six new settings. */
  function Handled(s: Screen, e: Event, saveFails: bool): Screen {
    var r := React(s.prefs, e);
    Screen(r.prefs, Saved(s.storage, r.prefs, saveFails), s.calls + r.issued)
  }

  /** The load on mount: the settings read back, or no change when a read fails or a
      stored switch does not parse. The overlay is not restarted. */
  function Mounted(s: Screen, readFails: bool): Screen {
    var loaded := Loaded(s.storage, DEFAULT_DURATION_MS);
    if readFails || loaded.None? then s else s.(prefs := loaded.value)
  }

  /** Mounting with nothing stored leaves the defaults. */
  lemma MountedFromEmpty(s: Screen)
    requires s.storage == map[]
    ensures Mounted(s, false).prefs == Defaults()
  {
    LoadedFromEmpty(DEFAULT_DURATION_MS);
  }

  /** After every handler whose save succeeds the storage holds the screen's new
      settings: mounting the screen again restores exactly them. */
  lemma {:induction false} SavedSettingsReadBack(s: Screen, e: Event)
    requires React(s.prefs, e).prefs.color != ""
    ensures Loaded(Handled(s, e, false).storage, DEFAULT_DURATION_MS) == Some(Handled(s, e, false).prefs)
  {
    var h := Handled(s, e, false);
    LoadedAfterSaved(s.storage, h.prefs, DEFAULT_DURATION_MS);
  }

  /** `getColorHex`: the swatch colour of a palette value, and blue's for anything else. */
  function ColorHex(value: string): (hex: string)
    ensures forall p: Overlay.Palette :: Overlay.PaletteName(p) == value ==> hex == PaletteHex(p)
    ensures (forall p: Overlay.Palette :: Overlay.PaletteName(p) != value) ==> hex == FALLBACK_HEX
  {
    match Overlay.FindPalette(value, COLOR_OPTIONS)
    case Some(p) => PaletteHex(p)
    case None => FALLBACK_HEX
  }

  /** The colour picker's options, in their order on screen. */
  const COLOR_OPTIONS: seq<Overlay.Palette> :=
    [Overlay.Blue, Overlay.Brown, Overlay.Pink, Overlay.Purple, Overlay.Green, Overlay.Grey]

  function PaletteHex(p: Overlay.Palette): string {
    match p
    case Blue => "#3B82F6"
    case Brown => "#92400E"
    case Pink => "#EC4899"
    case Purple => "#8B5CF6"
    case Green => "#22C55E"
    case Grey => "#6B7280"
  }

  /** Every colour the picker offers is one the native service draws: the eye it shows
      for the picked value is that colour's eye. */
  lemma PickedColorShowsItsEye(p: Overlay.Palette)
    ensures p in COLOR_OPTIONS
    ensures Overlay.ColorLayout(Overlay.PaletteName(p)) == Overlay.PaletteLayout(p)
  {
    var name := Overlay.PaletteName(p);
    Text.LowerOfLowercase(name);
    Overlay.PaletteColorResolves(name, p);
  }

  class SettingsScreen {
    var overlayOn: bool
    var alwaysOn: bool
    var onDuration: JsNum
    var offDuration: JsNum
    var overlaySize: JsNum
    var overlayColor: string
    var storage: Storage
    var calls: seq<Call>

    function Current(): Prefs
      reads this
    {
      Prefs(overlayOn, alwaysOn, onDuration, offDuration, overlaySize, overlayColor)
    }

    function State(): Screen
      reads this
    {
      Screen(Current(), storage, calls)
    }

    constructor (stored: Storage)
      ensures State() == Screen(Defaults(), stored, [])
    {
      overlayOn, alwaysOn := false, false;
      onDuration, offDuration := Whole(DEFAULT_DURATION_MS), Whole(DEFAULT_DURATION_MS);
      overlaySize, overlayColor := Whole(DEFAULT_SIZE), DEFAULT_COLOR;
      storage, calls := stored, [];
    }

    /** The load effect; `readFails` says whether `Promise.all` rejected. */
    method Mount(readFails: bool)
      modifies this
      ensures State() == Mounted(old(State()), readFails)
    {
      if readFails {
        return;
      }
      var loaded := Loaded(storage, DEFAULT_DURATION_MS);
      if loaded.Some? {
        overlayOn, alwaysOn := loaded.value.overlayOn, loaded.value.alwaysOn;
        onDuration, offDuration := loaded.value.onDuration, loaded.value.offDuration;
        overlaySize, overlayColor := loaded.value.size, loaded.value.color;
      }
    }

    method HideOverlay()
      modifies this
      ensures State() == old(State()).(calls := old(calls) + [HideCall])
    {
      calls := calls + [HideCall];
    }

    method ShowOverlay(onDur: JsNum, offDur: JsNum, size: JsNum, color: string)
      modifies this
      ensures State() == old(State()).(calls := old(calls) + [ShowCall(onDur, offDur, size, color)])
    {
      calls := calls + [ShowCall(onDur, offDur, size, color)];
    }

    method SaveState(p: Prefs, fails: bool)
      modifies this
      ensures State() == old(State()).(storage := Saved(old(storage), p, fails))
    {
      storage := Saved(storage, p, fails);
    }

    method HandleBlinkBuddyToggle(saveFails: bool)
      modifies this
      ensures State() == Handled(old(State()), BlinkBuddyToggle, saveFails)
    {
      var newOverlayOn := !overlayOn;
      if newOverlayOn {
        if alwaysOn {
          ShowOverlay(Whole(60 * 60 * 1000), Whole(1000), overlaySize, overlayColor);
        } else {
          ShowOverlay(onDuration, offDuration, overlaySize, overlayColor);
        }
      } else {
        HideOverlay();
      }
      overlayOn := newOverlayOn;
      SaveState(Current(), saveFails);
    }

    /** The shared tail of the Always-On, duration and colour handlers. */
    method StopAndSave(saveFails: bool)
      modifies this
      ensures var r := Stopped(old(Current()));
        State() == Screen(r.prefs, Saved(old(storage), r.prefs, saveFails), old(calls) + r.issued)
    {
      if overlayOn {
        HideOverlay();
        overlayOn := false;
      }
      SaveState(Current(), saveFails);
    }

    method HandleAlwaysOnToggle(saveFails: bool)
      modifies this
      ensures State() == Handled(old(State()), AlwaysOnToggle, saveFails)
    {
      alwaysOn := !alwaysOn;
      StopAndSave(saveFails);
    }

    method HandleOnDurationChange(value: int, saveFails: bool)
      modifies this
      ensures State() == Handled(old(State()), OnDurationChange(value), saveFails)
    {
      onDuration := Whole(value);
      StopAndSave(saveFails);
    }

    method HandleOffDurationChange(value: int, saveFails: bool)
      modifies this
      ensures State() == Handled(old(State()), OffDurationChange(value), saveFails)
    {
      offDuration := Whole(value);
      StopAndSave(saveFails);
    }

    method HandleColorChange(color: string, saveFails: bool)
      modifies this
      ensures State() == Handled(old(State()), ColorChange(color), saveFails)
    {
      overlayColor := color;
      StopAndSave(saveFails);
    }

    method HandleSizeChange(value: int, saveFails: bool)
      modifies this
      ensures State() == Handled(old(State()), SizeChange(value), saveFails)
    {
      overlaySize := Whole(value);
      if overlayOn {
        HideOverlay();
        ShowOverlay(onDuration, offDuration, Whole(value), overlayColor);
      }
      SaveState(Current(), saveFails);
    }
  }
}
