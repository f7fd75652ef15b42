/** The React Native module `Overlay` (`OverlayModule`): a permission gate in front of
    the main overlay service. It holds no state; each call returns the one effect it
    asks the system for. */
module OverlayCommands {
  import opened Wrappers
  import opened Platform
  import opened Bridge
  import Overlay

  /** The intent extras `showOverlay` puts: the durations as `Long`s truncated toward
      zero, the size as a `Float` and the colour string as given. */
  function ShowExtras(onDuration: real, offDuration: real, size: real, color: string): (e: Extras)
    ensures e.Keys == {"onDuration", "offDuration", "sizeInDp", "color"}
  {
    map["onDuration" := LongExtra(DoubleToLong(onDuration)),
        "offDuration" := LongExtra(DoubleToLong(offDuration)),
        "sizeInDp" := FloatExtra(size),
        "color" := StringExtra(color)]
  }

  /** `showOverlay(onDuration, offDuration, size, color)`: opens the permission settings
      when the application may not draw overlays, and starts `OverlayService` otherwise. */
  function ShowOverlay(sdk: int, canDrawOverlays: bool, packageName: string,
                       onDuration: real, offDuration: real, size: real, color: string): (e: Effect)
    ensures e.OpenOverlaySettings? <==> sdk >= SDK_M && !canDrawOverlays
    ensures e.OpenOverlaySettings? ==> e == OpenSettings(packageName)
    ensures !e.OpenOverlaySettings? ==> e == StartService(OVERLAY_SERVICE, ShowExtras(onDuration, offDuration, size, color))
  {
    if sdk >= SDK_M && !canDrawOverlays then OpenSettings(packageName)
    else StartService(OVERLAY_SERVICE, ShowExtras(onDuration, offDuration, size, color))
  }

  /** `hideOverlay`: stops the service, whatever was shown before. */
  function HideOverlay(): Effect {
    StopService(OVERLAY_SERVICE)
  }

  /** The service started by `showOverlay` reads back what the module put: the truncated
      durations, the size, and a colour it resolves (unknown names fall back to blue
      there, not here). */
  lemma ShownServiceReadsExtras(sdk: int, canDrawOverlays: bool, packageName: string,
                                onDuration: real, offDuration: real, size: real, color: string)
    requires !(sdk >= SDK_M && !canDrawOverlays)
    ensures var e := ShowOverlay(sdk, canDrawOverlays, packageName, onDuration, offDuration, size, color);
      var intent := Some(e.extras);
      e.StartService? &&
      GetLongExtra(intent, "onDuration", Overlay.DEFAULT_DURATION_MS) == DoubleToLong(onDuration) &&
      GetLongExtra(intent, "offDuration", Overlay.DEFAULT_DURATION_MS) == DoubleToLong(offDuration) &&
      GetFloatExtra(intent, "sizeInDp", Overlay.DEFAULT_SIZE_DP) == size &&
      GetStringExtra(intent, "color") == Some(color)
  {
  }

  /** Whole-millisecond durations reach the service unchanged, and the service's first
      switch is due after the on-duration, with the eye of the requested colour shown. */
  lemma ShowThenStartBlinksAsRequested(s: Overlay.Service, sdk: int, canDrawOverlays: bool,
                                       packageName: string, onMs: int, offMs: int, size: real,
                                       color: string, density: real, addViewFails: bool)
    requires !(sdk >= SDK_M && !canDrawOverlays)
    requires 0 <= onMs <= LONG_MAX && 0 <= offMs <= LONG_MAX
    ensures var e := ShowOverlay(sdk, canDrawOverlays, packageName, onMs as real, offMs as real, size, color);
      var t := Overlay.StartStep(s, Some(e.extras), density, addViewFails);
      t.onDuration == onMs && t.offDuration == offMs &&
      t.switchDue == s.switchDue + [s.now + onMs] &&
      t.overlay.Some? && t.overlay.value.eye.layout == Overlay.ColorLayout(color)
  {
    DoubleToLongOfWhole(onMs);
    DoubleToLongOfWhole(offMs);
  }

  /** `hideOverlay` stops exactly the service `showOverlay` starts. */
  lemma HideStopsWhatShowStarts(sdk: int, canDrawOverlays: bool, packageName: string,
                                onDuration: real, offDuration: real, size: real, color: string)
    ensures var e := ShowOverlay(sdk, canDrawOverlays, packageName, onDuration, offDuration, size, color);
      e.StartService? ==> HideOverlay() == StopService(e.service)
  {
  }
}
