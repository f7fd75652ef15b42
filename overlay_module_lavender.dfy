/** The React Native module `OverlayLavender` (`OverlayModuleLavender`): a permission
    gate plus a flag `isOverlayActive`, persisted in the shared preferences
    "OverlayPrefs", that turns a repeated show or a repeated hide into a no-op. */
module OverlayLavender {
  import opened Wrappers
  import opened Platform
  import opened Bridge

  const OVERLAY_ACTIVE_KEY := "isOverlayActive"

  type Prefs = map<string, bool>

  /** `sharedPrefs.getBoolean("isOverlayActive", false)`. */
  function Active(prefs: Prefs): bool {
    if OVERLAY_ACTIVE_KEY in prefs then prefs[OVERLAY_ACTIVE_KEY] else false
  }

  /** What a call leaves behind: the preferences and the effect it asked for, if any. */
  datatype Outcome = Outcome(prefs: Prefs, effect: Option<Effect>)

  /** `startOverlayService`: a foreground start from API 26 on, a plain one before. */
  function StartOverlayService(sdk: int, extras: Extras): (e: Effect)
    ensures e.Starts() && e.extras == extras
    ensures e.StartForegroundService? <==> sdk >= SDK_O
  {
    if sdk >= SDK_O then StartForegroundService(OVERLAY_SERVICE_LAVENDER, extras)
    else StartService(OVERLAY_SERVICE_LAVENDER, extras)
  }

  /** The shared body of `showOverlay` and `showOverlayWithBlink`: without permission,
      open the settings; when already active, do nothing; otherwise start the service
      and record the flag. The start's own failure is caught and logged, so the flag is
      set whether or not the service came up. */
  function Show(prefs: Prefs, sdk: int, canDrawOverlays: bool, packageName: string, extras: Extras): Outcome {
    if !HasOverlayPermission(sdk, canDrawOverlays) then Outcome(prefs, Some(OpenSettings(packageName)))
    else if Active(prefs) then Outcome(prefs, None)
    else Outcome(prefs[OVERLAY_ACTIVE_KEY := true], Some(StartOverlayService(sdk, extras)))
  }

  /** `showOverlay()`: no extras. */
  function ShowPlain(prefs: Prefs, sdk: int, canDrawOverlays: bool, packageName: string): Outcome {
    Show(prefs, sdk, canDrawOverlays, packageName, map[])
  }

  /** `showOverlayWithBlink(onDuration, offDuration)`: the durations as `Int` extras. */
  function ShowWithBlink(prefs: Prefs, sdk: int, canDrawOverlays: bool, packageName: string,
                                onDuration: int, offDuration: int): Outcome {
    Show(prefs, sdk, canDrawOverlays, packageName,
         map["onDuration" := IntExtra(onDuration), "offDuration" := IntExtra(offDuration)])
  }

  /** `hideOverlay()`: nothing when inactive; otherwise stop the service and clear the flag. */
  function Hide(prefs: Prefs): Outcome {
    if !Active(prefs) then Outcome(prefs, None)
    else Outcome(prefs[OVERLAY_ACTIVE_KEY := false], Some(StopService(OVERLAY_SERVICE_LAVENDER)))
  }

  /** Without permission a show only opens the settings: no service, no flag change. */
  lemma ShowWithoutPermission(prefs: Prefs, sdk: int, packageName: string, extras: Extras)
    requires sdk >= SDK_M
    ensures Show(prefs, sdk, false, packageName, extras) == Outcome(prefs, Some(OpenSettings(packageName)))
  {
  }

  /** A show with permission leaves the flag set, and it starts the service exactly when
      the flag was clear. */
  lemma ShowWithPermission(prefs: Prefs, sdk: int, canDrawOverlays: bool, packageName: string, extras: Extras)
    requires HasOverlayPermission(sdk, canDrawOverlays)
    ensures var o := Show(prefs, sdk, canDrawOverlays, packageName, extras);
      Active(o.prefs) &&
      (o.effect.Some? <==> !Active(prefs)) &&
      (o.effect.Some? ==> o.effect.value.Starts() && o.effect.value.extras == extras)
  {
  }

  /** Showing twice is showing once: the second call changes nothing and asks for nothing. */
  lemma ShowIsIdempotent(prefs: Prefs, sdk: int, canDrawOverlays: bool, packageName: string,
                         extras: Extras, extras': Extras)
    requires HasOverlayPermission(sdk, canDrawOverlays)
    ensures var once := Show(prefs, sdk, canDrawOverlays, packageName, extras);
      Show(once.prefs, sdk, canDrawOverlays, packageName, extras') == Outcome(once.prefs, None)
  {
  }

  /** Hiding twice is hiding once, and a hide leaves the flag clear. */
  lemma HideIsIdempotent(prefs: Prefs)
    ensures !Active(Hide(prefs).prefs)
    ensures Hide(Hide(prefs).prefs) == Outcome(Hide(prefs).prefs, None)
  {
  }

  /** A hide after a successful show stops the service the show started. */
  lemma HideUndoesShow(prefs: Prefs, sdk: int, canDrawOverlays: bool, packageName: string, extras: Extras)
    requires HasOverlayPermission(sdk, canDrawOverlays) && !Active(prefs)
    ensures var shown := Show(prefs, sdk, canDrawOverlays, packageName, extras);
      var hidden := Hide(shown.prefs);
      !Active(hidden.prefs) && hidden.effect == Some(StopService(shown.effect.value.service))
  {
  }

  /** The flag is clear until some show has recorded it. */
  lemma InactiveByDefault()
    ensures !Active(map[])
  {
  }

  /** The module object: the preferences it reads and writes through its
      `isOverlayActive` property. */
  class OverlayModuleLavender {
    var prefs: Prefs

    constructor (stored: Prefs)
      ensures prefs == stored
    {
      prefs := stored;
    }

    method ShowOverlay(sdk: int, canDrawOverlays: bool, packageName: string) returns (effect: Option<Effect>)
      modifies this
      ensures Outcome(prefs, effect) == ShowPlain(old(prefs), sdk, canDrawOverlays, packageName)
    {
      effect := StartGuarded(sdk, canDrawOverlays, packageName, map[]);
    }

    method ShowOverlayWithBlink(sdk: int, canDrawOverlays: bool, packageName: string,
                                onDuration: int, offDuration: int) returns (effect: Option<Effect>)
      modifies this
      ensures Outcome(prefs, effect) == ShowWithBlink(old(prefs), sdk, canDrawOverlays, packageName, onDuration, offDuration)
    {
      var extras := map["onDuration" := IntExtra(onDuration), "offDuration" := IntExtra(offDuration)];
      effect := StartGuarded(sdk, canDrawOverlays, packageName, extras);
    }

    method StartGuarded(sdk: int, canDrawOverlays: bool, packageName: string, extras: Extras) returns (effect: Option<Effect>)
      modifies this
      ensures Outcome(prefs, effect) == Show(old(prefs), sdk, canDrawOverlays, packageName, extras)
    {
      if !HasOverlayPermission(sdk, canDrawOverlays) {
        return Some(OpenSettings(packageName));
      }
      var active := IsOverlayRunning();
      if active {
        return None;
      }
      effect := Some(StartOverlayService(sdk, extras));
      prefs := prefs[OVERLAY_ACTIVE_KEY := true];
    }

    method HideOverlay() returns (effect: Option<Effect>)
      modifies this
      ensures Outcome(prefs, effect) == Hide(old(prefs))
    {
      var active := IsOverlayRunning();
      if !active {
        return None;
      }
      effect := Some(StopService(OVERLAY_SERVICE_LAVENDER));
      prefs := prefs[OVERLAY_ACTIVE_KEY := false];
    }

    /** `isOverlayRunning`: resolves the flag as stored. */
    method IsOverlayRunning() returns (active: bool)
      ensures active == Active(prefs)
    {
      active := OVERLAY_ACTIVE_KEY in prefs && prefs[OVERLAY_ACTIVE_KEY];
    }
  }
}
