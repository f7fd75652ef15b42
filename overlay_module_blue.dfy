/** The React Native module `OverlayBlue` (`OverlayModuleBlue`): the same permission
    gate as `Overlay`, in front of the blue service, passing only the two durations. */
module OverlayBlueCommands {
  import opened Wrappers
  import opened Platform
  import opened Bridge
  import OverlayBlue

  function ShowExtras(onDuration: real, offDuration: real): (e: Extras)
    ensures e.Keys == {"onDuration", "offDuration"}
  {
    map["onDuration" := LongExtra(DoubleToLong(onDuration)),
        "offDuration" := LongExtra(DoubleToLong(offDuration))]
  }

  /** `showOverlay(onDuration, offDuration)`. */
  function ShowOverlay(sdk: int, canDrawOverlays: bool, packageName: string,
                       onDuration: real, offDuration: real): (e: Effect)
    ensures e.OpenOverlaySettings? <==> sdk >= SDK_M && !canDrawOverlays
    ensures e.OpenOverlaySettings? ==> e == OpenSettings(packageName)
    ensures !e.OpenOverlaySettings? ==> e == StartService(OVERLAY_SERVICE_BLUE, ShowExtras(onDuration, offDuration))
  {
    if sdk >= SDK_M && !canDrawOverlays then OpenSettings(packageName)
    else StartService(OVERLAY_SERVICE_BLUE, ShowExtras(onDuration, offDuration))
  }

  /** `hideOverlay`. */
  function HideOverlay(): Effect {
    StopService(OVERLAY_SERVICE_BLUE)
  }

  /** The blue service started by `showOverlay` runs with the truncated durations and
      the eye shown, and unless its window update throws it switches first after the
      on-duration. */
  lemma ShowThenStartBlinksAsRequested(s: OverlayBlue.Blue, sdk: int, canDrawOverlays: bool,
                                       packageName: string, onDuration: real, offDuration: real,
                                       density: real, addViewFails: bool)
    requires !(sdk >= SDK_M && !canDrawOverlays)
    ensures var e := ShowOverlay(sdk, canDrawOverlays, packageName, onDuration, offDuration);
      var t := OverlayBlue.StartStep(s, Some(e.extras), density, addViewFails);
      e.StartService? &&
      t.onDuration == DoubleToLong(onDuration) && t.offDuration == DoubleToLong(offDuration) &&
      !t.showingHidden &&
      (!OverlayBlue.UpdateThrows(s, addViewFails) ==>
         t.switchDue == s.switchDue + [DueAfter(s.now, DoubleToLong(onDuration))])
  {
  }

  /** `hideOverlay` stops exactly the service `showOverlay` starts. */
  lemma HideStopsWhatShowStarts(sdk: int, canDrawOverlays: bool, packageName: string,
                                onDuration: real, offDuration: real)
    ensures var e := ShowOverlay(sdk, canDrawOverlays, packageName, onDuration, offDuration);
      e.StartService? ==> HideOverlay() == StopService(e.service)
  {
  }
}
