/** The effects the native modules ask the Android system for, as values: opening the
    overlay-permission settings screen, and starting or stopping one of the overlay
    services with the extras put on its intent. */
module Bridge {
  import opened Platform

  const OVERLAY_SERVICE := "OverlayService"
  const OVERLAY_SERVICE_BLUE := "OverlayServiceBlue"
  const OVERLAY_SERVICE_LAVENDER := "OverlayServiceLavender"

  datatype Effect =
    | OpenOverlaySettings(uri: string)
    | StartService(service: string, extras: Extras)
    | StartForegroundService(service: string, extras: Extras)
    | StopService(service: string)
    | OpenUsageAccessSettings
  {
    predicate Starts() { StartService? || StartForegroundService? }
  }

  /** `Settings.ACTION_MANAGE_OVERLAY_PERMISSION` for this application's package. */
  function OpenSettings(packageName: string): Effect {
    OpenOverlaySettings("package:" + packageName)
  }

  /** May the application draw over other applications? Below API 23 the permission is
      granted at install time, from 23 on it is whatever `Settings.canDrawOverlays`
      says. */
  function HasOverlayPermission(sdk: int, canDrawOverlays: bool): (granted: bool)
    ensures sdk < SDK_M ==> granted
    ensures sdk >= SDK_M ==> (granted <==> canDrawOverlays)
  {
    sdk < SDK_M || canDrawOverlays
  }
}
