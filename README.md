# BlinkBuddy, modelled in Dafny

BlinkBuddy is an Android app, written in React Native with native Kotlin modules, that
reminds its user to blink. This project models the app's core in Dafny and proves
properties of the model.

- **Overlay services.** A foreground service keeps a small animated eye over every other
  application. It swaps the eye for a blank placeholder on a fixed on/off rhythm. Every
  20 minutes it posts a notification with one of 30 reminder texts. Two variants exist:
  - the cyan service blinks by making its single view invisible;
  - the blue service replaces its window view on every switch.
- **Native modules.** These start and stop the services behind an overlay-permission
  gate. They are `Overlay`, `OverlayBlue` and `OverlayLavender`; the Lavender module
  keeps an "already active" flag in shared preferences. The `Usage` module reports
  per-app foreground time from the system's usage statistics.
- **Screens.**
  - The settings screen holds six settings: the overlay switch, Always-On, the on and off
    durations, the colour and the size. It persists them in AsyncStorage, and each change
    issues the matching hide or show calls.
  - The older `EyeShow` panel keeps the same settings. It hides through all four native
    modules and restarts the overlay when it is mounted.
  - The home and usage screens sort and de-duplicate the usage report, filter and search
    it, and format times and names.
  - The onboarding view checks permissions and moves the user on.
  - The root component navigates between the screens.

## How it is modelled

**Services.** Each service is a pure state datatype with one step function per callback
(`onStartCommand`, a runnable firing, a touch, `onDestroy`). Beside it sits a class with
the service's own fields. Each class method is proved to move its fields exactly as the
step function does.

**Time and the message queue.** Time is a logical millisecond clock. A `Handler`'s
pending posts are a sequence of due times. A fire runs the earliest pending post and
moves the clock to its due time; a tick lets time pass up to the next post, so start
commands and `onDestroy` can arrive at any moment in between.
Invariants say that nothing pending lies in the past and that view ids are fresh. Lemmas
pin down the blink schedule (on, off, on, off, …).

**Screens.** The React components are classes whose fields are the component's state,
the AsyncStorage contents and the native calls issued so far. A pure `React`/`Handled`
function says what each handler does. Lemmas relate a save to the following load.

**Outside effects are parameters.** These are the API level, whether overlays may be
drawn, a failing storage call, the screen density, the random reminder pick and what the
usage query returns.

JavaScript numbers read back from storage are whole numbers or `NaN`, because `parseInt`
yields `NaN` on text without digits.

## Model


| member | source | states |
|---|---|---|
| Overlay.FindPalette | android/app/src/main/java/com/awesomeproject/overlay/OverlayService.kt:221-229 | the colour found has the looked-up name and is in the list; none found means no colour of the list has that name |
| Overlay.PaletteColorResolves | android/app/src/main/java/com/awesomeproject/overlay/OverlayService.kt:221-229 | a colour name equal, ignoring case, to one of the six colours selects that colour's eye layout and that colour's animated eye |
| Overlay.UnknownColorIsBlue | android/app/src/main/java/com/awesomeproject/overlay/OverlayService.kt:258-268 | any other colour name falls back to the blue layout and the blue animation |
| Overlay.ColorIgnoresCase | android/app/src/main/java/com/awesomeproject/overlay/OverlayService.kt:221 | the colour chosen depends only on the lower-case form of the name |
| Overlay.SwitchDueAtClosedForm | android/app/src/main/java/com/awesomeproject/overlay/OverlayService.kt:49-57 | after n switches of one run the next switch is due after n/2+1 on-periods and (n+1)/2 off-periods |
| Overlay.EvenBlinkSchedule | android/app/src/main/java/com/awesomeproject/overlay/OverlayService.kt:49-57 | with 4000 ms on and off the switch fires every 4 seconds after the start |
| Overlay.FreshInv | android/app/src/main/java/com/awesomeproject/overlay/OverlayService.kt:37-47 | a newly created service satisfies the invariant: nothing pending in the past, no switch without an overlay, fresh view ids |
| Overlay.StartKeepsInv | android/app/src/main/java/com/awesomeproject/overlay/OverlayService.kt:59-92 | a start command keeps the invariant and mounts a new root showing the eye; the root is attached iff addView succeeded |
| Overlay.FireSwitchKeepsInv | android/app/src/main/java/com/awesomeproject/overlay/OverlayService.kt:49-57 | running the earliest pending switch keeps the invariant |
| Overlay.FireReminderKeepsInv | android/app/src/main/java/com/awesomeproject/overlay/OverlayService.kt:28-35 | running the earliest pending reminder keeps the invariant |
| Overlay.DestroyStopsEverything | android/app/src/main/java/com/awesomeproject/overlay/OverlayService.kt:303-313 | onDestroy cancels every pending post of both runnables and, unless the removal throws, takes the overlay off the window |
| Overlay.FreshStartIsOneRun | android/app/src/main/java/com/awesomeproject/overlay/OverlayService.kt:59-92 | the first start of a new service leaves one switch due after the on-duration and one reminder due after 20 minutes, with the eye showing |
| Overlay.FireSwitchKeepsOneRun | android/app/src/main/java/com/awesomeproject/overlay/OverlayService.kt:49-57 | within a run each switch flips between eye and placeholder and re-posts itself at the run's schedule |
| Overlay.FireReminderKeepsOneRun | android/app/src/main/java/com/awesomeproject/overlay/OverlayService.kt:28-35 | within a run each reminder re-posts itself 20 minutes after the previous one |
| Overlay.ReminderLeavesBlinkAlone | android/app/src/main/java/com/awesomeproject/overlay/OverlayService.kt:127-191 | a reminder leaves the views, the switch flag and the switch's posts as they were, and adds one notification whose text is from the pool of 30 |
| Overlay.RestartWhileHiddenKeepsEyeOnScreen | android/app/src/main/java/com/awesomeproject/overlay/OverlayService.kt:59-92 | a start while the placeholder shows keeps showingHidden set, so the next switch leaves the new eye visible; earlier switch posts stay pending |
| Overlay.TickKeepsInv | android/app/src/main/java/com/awesomeproject/overlay/OverlayService.kt:88-89 | time passing up to the next post keeps the invariant and any run, and a start that arrives later posts its switch and reminder relative to its own arrival |
| Overlay.OverlayService.constructor | android/app/src/main/java/com/awesomeproject/overlay/OverlayService.kt:37-47 | the service starts with 3000 ms durations, nothing pending, no overlay, and satisfies the invariant |
| Overlay.OverlayService.SetupOverlay | android/app/src/main/java/com/awesomeproject/overlay/OverlayService.kt:194-255 | inflates a root with the colour's eye visible and the placeholder gone, sizes the window in pixels, and adds it unless the window manager refuses |
| Overlay.OverlayService.AddView | android/app/src/main/java/com/awesomeproject/overlay/OverlayService.kt:249-254 | the root is attached exactly when addView does not fail; a failure is swallowed |
| Overlay.OverlayService.Start | android/app/src/main/java/com/awesomeproject/overlay/OverlayService.kt:59-92 | onStartCommand reads the extras with their defaults, mounts the overlay and posts the switch and the reminder; the invariant is kept |
| Overlay.OverlayService.PostSwitch | android/app/src/main/java/com/awesomeproject/overlay/OverlayService.kt:88 | appends one switch post due after the delay (never in the past) |
| Overlay.OverlayService.PostReminder | android/app/src/main/java/com/awesomeproject/overlay/OverlayService.kt:89 | appends one reminder post due after the delay |
| Overlay.OverlayService.FireSwitch | android/app/src/main/java/com/awesomeproject/overlay/OverlayService.kt:49-57 | the switch flips showingHidden, shows the matching view and re-posts after the off- or on-duration; the invariant is kept |
| Overlay.OverlayService.FireReminder | android/app/src/main/java/com/awesomeproject/overlay/OverlayService.kt:30-35 | the reminder records one notification and re-posts itself 20 minutes later; the invariant is kept |
| Overlay.OverlayService.Touch | android/app/src/main/java/com/awesomeproject/overlay/OverlayService.kt:271-290 | a press records the drag start and a move places the window; only those two are consumed |
| Overlay.OverlayService.Destroy | android/app/src/main/java/com/awesomeproject/overlay/OverlayService.kt:303-313 | removes every callback and the overlay; reports a throw when the root was never attached |
| Overlay.OverlayService.Tick | android/app/src/main/java/com/awesomeproject/overlay/OverlayService.kt:88-89 | the looper's clock moves on to a time no later than the next post; the invariant is kept |
| OverlayCyan.Without | android/app/src/main/java/com/awesomeproject/overlay_cyan/OverlayServiceCyan.kt:164-167 | removeCallbacks leaves exactly the posts of other runnables |
| OverlayCyan.FreshInv | android/app/src/main/java/com/awesomeproject/overlay_cyan/OverlayServiceCyan.kt:18-27 | a new cyan service satisfies its invariant |
| OverlayCyan.StartKeepsInv | android/app/src/main/java/com/awesomeproject/overlay_cyan/OverlayServiceCyan.kt:37-49 | a start keeps the invariant; unless addView throws it adds one post of a brand-new runnable and keeps every earlier post |
| OverlayCyan.FireKeepsInv | android/app/src/main/java/com/awesomeproject/overlay_cyan/OverlayServiceCyan.kt:149-159 | running the earliest pending blink keeps the invariant |
| OverlayCyan.TwoBlinksMakeACycle | android/app/src/main/java/com/awesomeproject/overlay_cyan/OverlayServiceCyan.kt:149-159 | two blinks restore the view's visibility and move the next blink on by one on- and one off-period |
| OverlayCyan.StopCancelsLatestOnly | android/app/src/main/java/com/awesomeproject/overlay_cyan/OverlayServiceCyan.kt:164-167 | stopBlinking cancels exactly the posts of the latest runnable and makes the view visible |
| OverlayCyan.EarlierBlinkOutlivesDestroy | android/app/src/main/java/com/awesomeproject/overlay_cyan/OverlayServiceCyan.kt:146-177 | after a second start, onDestroy leaves every post of the first start's runnable pending |
| OverlayCyan.OrphanBlinkKeepsRunning | android/app/src/main/java/com/awesomeproject/overlay_cyan/OverlayServiceCyan.kt:149-159 | with the view gone a pending blink re-posts itself after the off-duration |
| OverlayCyan.DestroyKeepsInv | android/app/src/main/java/com/awesomeproject/overlay_cyan/OverlayServiceCyan.kt:169-177 | onDestroy keeps the invariant and, unless it throws, takes the view off the window |
| OverlayCyan.TickKeepsInv | android/app/src/main/java/com/awesomeproject/overlay_cyan/OverlayServiceCyan.kt:146-162 | time passing up to the next post keeps the invariant, and a start that arrives later posts its new runnable relative to its own arrival |
| OverlayCyan.OverlayServiceCyan.constructor | android/app/src/main/java/com/awesomeproject/overlay_cyan/OverlayServiceCyan.kt:18-27 | 1000 ms durations, no view, nothing pending |
| OverlayCyan.OverlayServiceCyan.Start | android/app/src/main/java/com/awesomeproject/overlay_cyan/OverlayServiceCyan.kt:37-49 | reads the Int extras, sets up the view and starts blinking; throws exactly when addView fails |
| OverlayCyan.OverlayServiceCyan.SetupOverlay | android/app/src/main/java/com/awesomeproject/overlay_cyan/OverlayServiceCyan.kt:78-144 | inflates a new eye view, attaches it and starts blinking, or stops after inflating when addView throws |
| OverlayCyan.OverlayServiceCyan.StartBlinking | android/app/src/main/java/com/awesomeproject/overlay_cyan/OverlayServiceCyan.kt:146-162 | shows the view, creates a new runnable and posts it after the on-duration |
| OverlayCyan.OverlayServiceCyan.Fire | android/app/src/main/java/com/awesomeproject/overlay_cyan/OverlayServiceCyan.kt:149-159 | toggles the current view and re-posts after the on- or off-duration; the invariant is kept |
| OverlayCyan.OverlayServiceCyan.StopBlinking | android/app/src/main/java/com/awesomeproject/overlay_cyan/OverlayServiceCyan.kt:164-167 | cancels the latest runnable's posts and shows the view |
| OverlayCyan.OverlayServiceCyan.Touch | android/app/src/main/java/com/awesomeproject/overlay_cyan/OverlayServiceCyan.kt:111-136 | a press records the drag start and a move places the window |
| OverlayCyan.OverlayServiceCyan.Destroy | android/app/src/main/java/com/awesomeproject/overlay_cyan/OverlayServiceCyan.kt:169-177 | stops blinking and removes the view; reports a throw when it was never attached |
| OverlayCyan.OverlayServiceCyan.Tick | android/app/src/main/java/com/awesomeproject/overlay_cyan/OverlayServiceCyan.kt:146-162 | the looper's clock moves on to a time no later than the next post; the invariant is kept |
| OverlayBlue.FreshInv | android/app/src/main/java/com/awesomeproject/overlay_blue/OverlayServiceBlue.kt:27-28 | a new blue service satisfies its invariant |
| OverlayBlue.StartKeepsInv | android/app/src/main/java/com/awesomeproject/overlay_blue/OverlayServiceBlue.kt:40-73 | a start keeps the invariant and clears showingHidden; unless updateOverlay throws, the blue eye is the one view on screen and one switch is posted after the on-duration besides the earlier posts; when it throws, nothing is on screen and nothing new is posted |
| OverlayBlue.FireKeepsInv | android/app/src/main/java/com/awesomeproject/overlay_blue/OverlayServiceBlue.kt:30-38 | running the earliest pending switch keeps the invariant and re-posts it unless updateOverlay throws |
| OverlayBlue.RefusedViewStopsTheBlink | android/app/src/main/java/com/awesomeproject/overlay_blue/OverlayServiceBlue.kt:30-38 | once a view was refused, every later switch throws at removeView, drops its post without re-posting and keeps the refused view |
| OverlayBlue.AtMostOneView | android/app/src/main/java/com/awesomeproject/overlay_blue/OverlayServiceBlue.kt:75-113 | the window never holds more than one of the service's views |
| OverlayBlue.DestroyClearsEverything | android/app/src/main/java/com/awesomeproject/overlay_blue/OverlayServiceBlue.kt:115-122 | after onDestroy nothing is pending and nothing is on screen; the view is forgotten iff its removal did not throw |
| OverlayBlue.TickKeepsInv | android/app/src/main/java/com/awesomeproject/overlay_blue/OverlayServiceBlue.kt:70 | time passing up to the next post keeps the invariant and any run, and a start that arrives later posts its switch relative to its own arrival |
| OverlayBlue.TouchKeepsInv | android/app/src/main/java/com/awesomeproject/overlay_blue/OverlayServiceBlue.kt:84-107 | a touch changes only the window position and the drag start, and keeps the invariant |
| OverlayBlue.PressThenMoveFollowsFinger | android/app/src/main/java/com/awesomeproject/overlay_blue/OverlayServiceBlue.kt:92-103 | a press then a whole-pixel move drags the window with the finger, mirrored in x |
| OverlayBlue.MoveOnNewViewStartsFromZero | android/app/src/main/java/com/awesomeproject/overlay_blue/OverlayServiceBlue.kt:84-88 | each new view has its own listener with a zero drag start, so a move before any press places the window at the finger's raw offset |
| OverlayBlue.PositionKeptUntilNextStart | android/app/src/main/java/com/awesomeproject/overlay_blue/OverlayServiceBlue.kt:51-63 | every switch keeps the dragged position, since all views share `layoutParams`; a start puts the window back at 0 and 200 dp |
| OverlayBlue.FreshStartIsOneRun | android/app/src/main/java/com/awesomeproject/overlay_blue/OverlayServiceBlue.kt:40-73 | the first accepted start of a new service begins a run on the same schedule as the main service; a refused one posts nothing |
| OverlayBlue.FireKeepsOneRun | android/app/src/main/java/com/awesomeproject/overlay_blue/OverlayServiceBlue.kt:30-38 | each accepted switch within a run flips the view and re-posts at the run's schedule; a refused one ends the run with nothing pending |
| OverlayBlue.OverlayServiceBlue.constructor | android/app/src/main/java/com/awesomeproject/overlay_blue/OverlayServiceBlue.kt:27-28 | 3000 ms durations, no view, nothing pending |
| OverlayBlue.OverlayServiceBlue.Start | android/app/src/main/java/com/awesomeproject/overlay_blue/OverlayServiceBlue.kt:40-73 | reads the Long extras, shows the eye and posts the switch unless updateOverlay throws, which it reports; the invariant is kept |
| OverlayBlue.OverlayServiceBlue.UpdateOverlay | android/app/src/main/java/com/awesomeproject/overlay_blue/OverlayServiceBlue.kt:75-113 | removes the current view (throwing when it was never attached) and adds a new eye or placeholder view (throwing when refused) |
| OverlayBlue.OverlayServiceBlue.PostSwitch | android/app/src/main/java/com/awesomeproject/overlay_blue/OverlayServiceBlue.kt:70 | appends one switch post due after the delay |
| OverlayBlue.OverlayServiceBlue.Fire | android/app/src/main/java/com/awesomeproject/overlay_blue/OverlayServiceBlue.kt:30-38 | flips showingHidden, replaces the view and re-posts unless updateOverlay throws, which it reports; the invariant is kept |
| OverlayBlue.OverlayServiceBlue.Touch | android/app/src/main/java/com/awesomeproject/overlay_blue/OverlayServiceBlue.kt:84-107 | the current view's listener: a press records the drag start, a move places the window; only those two are consumed; the invariant is kept |
| OverlayBlue.OverlayServiceBlue.Destroy | android/app/src/main/java/com/awesomeproject/overlay_blue/OverlayServiceBlue.kt:115-122 | cancels the switch and removes the view; reports a throw when the view was never attached |
| OverlayBlue.OverlayServiceBlue.Tick | android/app/src/main/java/com/awesomeproject/overlay_blue/OverlayServiceBlue.kt:70 | the looper's clock moves on to a time no later than the next post; the invariant is kept |
| Platform.Truncate | android/app/src/main/java/com/awesomeproject/overlay/OverlayModule.kt:18-19 | the fraction is dropped toward zero: the result is within one of the input on the input's side of zero |
| Platform.DoubleToLongOfWhole | android/app/src/main/java/com/awesomeproject/overlay/OverlayModule.kt:18-19 | a whole number in the 64-bit range survives toLong unchanged |
| Platform.DueAfter | android/app/src/main/java/com/awesomeproject/overlay/OverlayService.kt:88-89 | on the unbounded clock a post is never due before it was made, and a non-negative delay is waited exactly |
| Platform.WrapLong | android/app/src/main/java/com/awesomeproject/overlay/OverlayService.kt:88-89 | a `Long` sum wraps into the 64-bit range: unchanged within it, one range lower just above it |
| Platform.AndroidDueAgrees | android/app/src/main/java/com/awesomeproject/overlay/OverlayService.kt:88-89 | while clock plus delay fits a `Long`, Android's 64-bit due time is `DueAfter` |
| Platform.AndroidDueWrapsPastLongMax | android/app/src/main/java/com/awesomeproject/overlay/OverlayService.kt:88-89 | beyond that, Android's due time wraps below zero, so the post runs at once, while `DueAfter` lies beyond `LONG_MAX` |
| Window.DraggedByWholePixels | android/app/src/main/java/com/awesomeproject/overlay/OverlayService.kt:271-290 | moving the finger by whole pixels moves the window by as much, mirrored horizontally |
| Bridge.HasOverlayPermission | android/app/src/main/java/com/awesomeproject/permission/OverlayPermissionModule.kt:17-25 | granted below API 23, otherwise exactly what canDrawOverlays says |
| OverlayCommands.ShowExtras | android/app/src/main/java/com/awesomeproject/overlay/OverlayModule.kt:29-34 | the intent carries exactly onDuration, offDuration, sizeInDp and color |
| OverlayCommands.ShowOverlay | android/app/src/main/java/com/awesomeproject/overlay/OverlayModule.kt:16-37 | opens the permission settings iff API 23+ without permission, otherwise starts OverlayService with the extras |
| OverlayCommands.ShownServiceReadsExtras | android/app/src/main/java/com/awesomeproject/overlay/OverlayModule.kt:17-35 | the started service reads back the truncated durations, the size and the colour |
| OverlayCommands.ShowThenStartBlinksAsRequested | android/app/src/main/java/com/awesomeproject/overlay/OverlayModule.kt:16-37 | whenever the permission gate lets the start through, whole-millisecond durations reach the service unchanged, its first switch is due after the on-duration and the eye has the requested colour |
| OverlayCommands.HideStopsWhatShowStarts | android/app/src/main/java/com/awesomeproject/overlay/OverlayModule.kt:40-44 | hideOverlay stops the very service showOverlay starts |
| OverlayBlueCommands.ShowExtras | android/app/src/main/java/com/awesomeproject/overlay_blue/OverlayModuleBlue.kt:26-29 | the intent carries exactly the two durations |
| OverlayBlueCommands.ShowOverlay | android/app/src/main/java/com/awesomeproject/overlay_blue/OverlayModuleBlue.kt:15-32 | the same permission gate in front of a start of the blue service |
| OverlayBlueCommands.ShowThenStartBlinksAsRequested | android/app/src/main/java/com/awesomeproject/overlay_blue/OverlayModuleBlue.kt:15-32 | the blue service then runs with the truncated durations and the eye shown, and unless its window update throws it switches first after the on-duration |
| OverlayBlueCommands.HideStopsWhatShowStarts | android/app/src/main/java/com/awesomeproject/overlay_blue/OverlayModuleBlue.kt:35-39 | hideOverlay stops the very service showOverlay starts |
| OverlayLavender.StartOverlayService | android/app/src/main/java/com/awesomeproject/overlay_lavender/OverlayModuleLavender.kt:98-108 | a foreground start iff API 26+, a plain start otherwise, with the given extras |
| OverlayLavender.ShowWithoutPermission | android/app/src/main/java/com/awesomeproject/overlay_lavender/OverlayModuleLavender.kt:28-33 | without permission a show only opens the settings and leaves the flag alone |
| OverlayLavender.ShowWithPermission | android/app/src/main/java/com/awesomeproject/overlay_lavender/OverlayModuleLavender.kt:28-43 | with permission a show leaves the flag set and starts the service iff the flag was clear |
| OverlayLavender.ShowIsIdempotent | android/app/src/main/java/com/awesomeproject/overlay_lavender/OverlayModuleLavender.kt:35-38 | a second show changes nothing and asks for nothing |
| OverlayLavender.HideIsIdempotent | android/app/src/main/java/com/awesomeproject/overlay_lavender/OverlayModuleLavender.kt:66-76 | a hide leaves the flag clear, and a second hide does nothing |
| OverlayLavender.HideUndoesShow | android/app/src/main/java/com/awesomeproject/overlay_lavender/OverlayModuleLavender.kt:66-76 | a hide after a successful show stops the service the show started and clears the flag |
| OverlayLavender.InactiveByDefault | android/app/src/main/java/com/awesomeproject/overlay_lavender/OverlayModuleLavender.kt:24-26 | the flag reads false until written |
| OverlayLavender.OverlayModuleLavender.constructor | android/app/src/main/java/com/awesomeproject/overlay_lavender/OverlayModuleLavender.kt:19-26 | the module reads the stored preferences |
| OverlayLavender.OverlayModuleLavender.ShowOverlay | android/app/src/main/java/com/awesomeproject/overlay_lavender/OverlayModuleLavender.kt:28-43 | the guarded start without extras, as the Show function says |
| OverlayLavender.OverlayModuleLavender.ShowOverlayWithBlink | android/app/src/main/java/com/awesomeproject/overlay_lavender/OverlayModuleLavender.kt:45-64 | the guarded start with the two Int durations |
| OverlayLavender.OverlayModuleLavender.StartGuarded | android/app/src/main/java/com/awesomeproject/overlay_lavender/OverlayModuleLavender.kt:47-63 | the permission gate, the already-active no-op, then the start and the flag write |
| OverlayLavender.OverlayModuleLavender.HideOverlay | android/app/src/main/java/com/awesomeproject/overlay_lavender/OverlayModuleLavender.kt:66-76 | nothing when inactive, otherwise stop the service and clear the flag |
| OverlayLavender.OverlayModuleLavender.IsOverlayRunning | android/app/src/main/java/com/awesomeproject/overlay_lavender/OverlayModuleLavender.kt:79-82 | resolves the stored flag |
| UsageQuery.HasUsagePermission | android/app/src/main/java/com/awesomeproject/usage/UsageModule.kt:43-59 | false below API 19, otherwise granted iff the app-op mode is MODE_ALLOWED |
| UsageQuery.RequestUsagePermission | android/app/src/main/java/com/awesomeproject/usage/UsageModule.kt:30-41 | opens the usage-access settings iff API 21+ |
| UsageQuery.IntervalGrowsWithDays | android/app/src/main/java/com/awesomeproject/usage/UsageModule.kt:76-80 | more days never choose a finer bucket; 1, 7 and 30 days get daily, weekly and monthly |
| UsageQuery.QueryWindow | android/app/src/main/java/com/awesomeproject/usage/UsageModule.kt:72-73 | the window ends now and spans exactly the requested number of days |
| UsageQuery.Entry | android/app/src/main/java/com/awesomeproject/usage/UsageModule.kt:105-122 | the label or, when the lookup throws, the package name; the time converted to seconds |
| UsageQuery.EmittedExactlyPositive | android/app/src/main/java/com/awesomeproject/usage/UsageModule.kt:103-126 | every record with a positive foreground time has its entry emitted, every emitted entry comes from such a record, and every emitted time is positive |
| UsageQuery.GetUsageStats | android/app/src/main/java/com/awesomeproject/usage/UsageModule.kt:61-132 | rejects UNSUPPORTED below API 21; otherwise asks the query for `IntervalFor(days)` over `QueryWindow(now, days)`, rejects NO_DATA when it returns null or an empty list, else resolves with the entries emitted from its answer |
| UsageQuery.AppIcon | android/app/src/main/java/com/awesomeproject/usage/UsageModule.kt:134-148 | a PNG data URI holding the encoded icon, or null when loading failed; never a rejection |
| UsageQuery.ReceivedEntriesAreNumeric | android/app/src/main/java/com/awesomeproject/usage/UsageModule.kt:117-122 | the screens' numeric-time filter keeps every entry the module emits |
| UsageStats.NumericOnly | components/HomeScreen.tsx:287 | keeps exactly the entries whose time is a number |
| UsageStats.NumericOnlyAppend | components/HomeScreen.tsx:287 | the filter distributes over concatenation, so it keeps the input's order and every copy |
| UsageStats.SortByTime | components/HomeScreen.tsx:289 | longest time first, a permutation of its input, and stable: the entries of each time keep their input order |
| UsageStats.Unique | components/HomeScreen.tsx:292-299 | no package twice, no already-seen package, only input entries, order kept when sorted |
| UsageStats.UniqueKeepsOrder | components/HomeScreen.tsx:292-299 | the kept entries are a subsequence of the input: they keep their input order |
| UsageStats.UniqueKeepsFirst | components/HomeScreen.tsx:292-299 | every package not seen before keeps its first entry |
| UsageStats.UniqueKeepsLongest | components/HomeScreen.tsx:289-299 | on a list sorted longest first, the entry kept for a package is at least as long as any other entry of it |
| UsageStats.DedupeByPackage | components/HomeScreen.tsx:292-299 | the seen-set loop yields the first entry of each package |
| UsageStats.ChartEntries | components/HomeScreen.tsx:380 | at most five entries, each from the first five and with positive time, and every such entry; order in the two lemmas below |
| UsageStats.PositiveTimeAppend | components/HomeScreen.tsx:380 | the positive-time filter distributes over concatenation |
| UsageStats.ChartEntriesAppend | components/HomeScreen.tsx:380 | within the first five entries the chart keeps the list's order, entry by entry |
| UsageStats.ChartEntriesIgnoresRest | components/HomeScreen.tsx:380 | entries after the fifth never reach the chart |
| UsageStats.SimpleName | components/UsageScreen.tsx:102-105 | the text after the last dot, or the whole name when that text is empty |
| UsageStats.SimpleNameWithoutDot | components/UsageScreen.tsx:102-105 | a name without dots is its own last segment |
| UsageStats.ClockOfDecomposes | components/HomeScreen.tsx:371-376 | for non-negative seconds: hours, minutes below 60 and seconds below 60 adding up to the whole seconds |
| UsageStats.FormatTimeShowsHours | components/HomeScreen.tsx:371-376 | the text has an hours part iff there is at least one whole hour |
| Home.MatchesPrefixMeaning | components/HomeScreen.tsx:265-267 | a package matches a prefix when it is the prefix or lies below it at a dot |
| Home.AnyMatches | components/HomeScreen.tsx:265-267 | true iff some prefix of the list matches |
| Home.NotSystem | components/HomeScreen.tsx:288 | keeps exactly the non-system entries |
| Home.NotSystemAppend | components/HomeScreen.tsx:288 | the filter distributes over concatenation, so it keeps the input's order and every copy |
| Home.ReportProperties | components/HomeScreen.tsx:286-300 | the report is sorted, one entry per package, free of system packages, and made of numeric entries of the input |
| Home.ReportCoversPackages | components/HomeScreen.tsx:286-300 | every non-system numeric package is reported by its first entry in sorted order |
| Home.Days | components/HomeScreen.tsx:181-185 | today asks for 1 day, the week for 7 and the month for 30 |
| Home.IconRequests | components/HomeScreen.tsx:303 | the packages of the first ten entries (all of them when there are fewer), in order |
| Home.IconsFor | components/HomeScreen.tsx:316-326 | an icon for exactly the requested packages whose icon came back, with that URI |
| Home.BuildIcons | components/HomeScreen.tsx:317-326 | the forEach builds exactly that icon map |
| Home.IconsOnlyForTopTen | components/HomeScreen.tsx:303-329 | an icon is only held for a package among the first ten entries |
| Home.SpaceBeforeCapitals | components/HomeScreen.tsx:365 | every capital is preceded by a space, and the non-space characters are kept |
| Home.SpaceBeforeCapitalsRoundTrip | components/HomeScreen.tsx:365 | dropping the space in front of each capital gives back the input, so only those spaces were added |
| Home.CapitalizeFirst | components/HomeScreen.tsx:366 | same length, the first character upper-cased unless it is a line terminator (then nothing changes), the rest kept |
| Home.DisplayName | components/HomeScreen.tsx:353-368 | a usable label that differs from the package name is shown as is |
| Home.DisplayNameFallback | components/HomeScreen.tsx:359-368 | without a usable label the name is built from the package name's last segment and carries no white space at either end |
| Home.HomeScreen.constructor | components/HomeScreen.tsx:188-191 | empty report and icons, the week period, loading |
| Home.HomeScreen.LoadUsageStats | components/HomeScreen.tsx:271-336 | unsupported clears the report; no permission changes nothing; otherwise the report and its icons; loading ends in every case |
| Home.HomeScreen.HandleDurationChange | components/HomeScreen.tsx:344-350 | a new period clears the report and icons; the current one changes nothing |
| UsageList.Listing | components/UsageScreen.tsx:79-92 | sorted longest first, one entry per package, and every listed entry is a numeric entry of the input |
| UsageList.ListingCoversPackages | components/UsageScreen.tsx:79-94 | every package with a numeric entry is listed, by an entry at least as long as any of its own |
| UsageList.SearchFilter | components/UsageScreen.tsx:52-58 | keeps exactly the entries matching the search, never more than given |
| UsageList.SearchFilterKeepsOrder | components/UsageScreen.tsx:53-56 | filtering distributes over concatenation, so the order is kept |
| UsageList.EmptySearchKeepsAll | components/UsageScreen.tsx:53-56 | an empty search keeps every entry in order |
| UsageList.SearchIgnoresCase | components/UsageScreen.tsx:54-55 | lower-casing the search text does not change the matches |
| UsageList.Graph | components/UsageScreen.tsx:114-116 | no graph iff none of the first five has positive time; otherwise the chart entries, exactly the positive ones among the first five |
| UsageList.UsageScreen.constructor | components/UsageScreen.tsx:34-37 | empty lists, permission unknown, empty search |
| UsageList.UsageScreen.CheckPermission | components/UsageScreen.tsx:60-68 | records the answer (a rejection as false) and loads the listing only when granted |
| UsageList.UsageScreen.LoadUsageStats | components/UsageScreen.tsx:74-99 | the listing, or an empty list on failure, with the filter re-applied |
| UsageList.UsageScreen.SetSearch | components/UsageScreen.tsx:52-58 | the new search text with the filtered list re-computed |
| Text.Lower | components/UsageScreen.tsx:54 | same length, ASCII capitals mapped to lower case, all else kept |
| Text.ContainsIff | components/UsageScreen.tsx:54 | includes is true iff the text occurs at some position |
| Text.AfterLastDot | components/UsageScreen.tsx:103-104 | a suffix of the name containing no dot |
| Text.ParseIntOfIntToString | components/SettingsScreen.tsx:207-216 | parseInt of a printed integer gives the integer back |
| StoredSettings.ParseNumOfNumText | components/SettingsScreen.tsx:207-216 | a number written by the save, NaN included, is read back unchanged |
| StoredSettings.Saved | components/SettingsScreen.tsx:165-185 | a successful save writes the six keys and keeps every other key with its value; a failed one writes nothing |
| StoredSettings.LoadedFromEmpty | components/SettingsScreen.tsx:188-228 | with nothing stored the load gives the defaults |
| StoredSettings.LoadedAfterSaved | components/SettingsScreen.tsx:165-228 | what a successful save wrote, the next load reads back exactly (for a non-empty colour) |
| StoredSettings.SavedReadsBack | components/SettingsScreen.tsx:165-185 | each key holds the text of its setting |
| Settings.OnIffLastCallShows | components/SettingsScreen.tsx:231-299 | after every handler the switch is on iff the last call was a show with the current size and colour; turning it off hides |
| Settings.ToggleShowsOrHides | components/SettingsScreen.tsx:244-258 | switching on shows with an hour on and a second off under Always-On, else with the chosen durations; switching off hides |
| Settings.SettingChangeStops | components/SettingsScreen.tsx:231-289 | Always-On, duration and colour changes turn the overlay off, hiding it when on, and change that one setting |
| Settings.SizeChangeRestarts | components/SettingsScreen.tsx:292-299 | a size change while running hides and shows again with the new size and the chosen durations, even under Always-On |
| Settings.MountedFromEmpty | components/SettingsScreen.tsx:188-228 | mounting with nothing stored keeps the defaults |
| Settings.SavedSettingsReadBack | components/SettingsScreen.tsx:165-228 | after any handler whose save succeeds, a remount restores exactly the new settings |
| Settings.ColorHex | components/SettingsScreen.tsx:302-305 | a palette value's swatch, and blue's for anything else |
| Settings.PickedColorShowsItsEye | components/SettingsScreen.tsx:41-48 | every colour offered is drawn by the service as that colour's eye |
| Settings.SettingsScreen.constructor | components/SettingsScreen.tsx:26-29 | the defaults, the given storage, no calls |
| Settings.SettingsScreen.Mount | components/SettingsScreen.tsx:188-228 | the settings read back, or unchanged when a read fails or a switch does not parse |
| Settings.SettingsScreen.HideOverlay | components/SettingsScreen.tsx:147-153 | records one hide call |
| Settings.SettingsScreen.ShowOverlay | components/SettingsScreen.tsx:156-162 | records one show call with the given arguments |
| Settings.SettingsScreen.SaveState | components/SettingsScreen.tsx:165-185 | the storage becomes the save of the given settings |
| Settings.SettingsScreen.HandleBlinkBuddyToggle | components/SettingsScreen.tsx:244-258 | the screen state becomes the toggle's Handled state |
| Settings.SettingsScreen.StopAndSave | components/SettingsScreen.tsx:231-241 | hides when on, turns the switch off and saves |
| Settings.SettingsScreen.HandleAlwaysOnToggle | components/SettingsScreen.tsx:231-241 | the screen state becomes the Always-On toggle's Handled state |
| Settings.SettingsScreen.HandleOnDurationChange | components/SettingsScreen.tsx:262-269 | the Handled state of an on-duration change |
| Settings.SettingsScreen.HandleOffDurationChange | components/SettingsScreen.tsx:272-279 | the Handled state of an off-duration change |
| Settings.SettingsScreen.HandleColorChange | components/SettingsScreen.tsx:282-289 | the Handled state of a colour change |
| Settings.SettingsScreen.HandleSizeChange | components/SettingsScreen.tsx:292-299 | the Handled state of a size change |
| EyeShowPanel.EveryModuleListed | components/EyeShow.tsx:46-51 | all four native modules are in the module table |
| EyeShowPanel.Lookup | components/EyeShow.tsx:46-51 | a module found is present and has the name; none found means no present module has it |
| EyeShowPanel.HideCalls | components/EyeShow.tsx:54-60 | only hides, for exactly the listed modules that are present |
| EyeShowPanel.HideCallsAppend | components/EyeShow.tsx:54-60 | the calls of a list are those of its parts one after the other: one hide per present module, in list order |
| EyeShowPanel.HideAllReachesEveryModule | components/EyeShow.tsx:54-60 | hideOverlay reaches every present module and no other |
| EyeShowPanel.ShowCalls | components/EyeShow.tsx:63-66 | at most one show, on the named module with the given arguments; none iff no present module has the name |
| EyeShowPanel.ToggleShowsOrHides | components/EyeShow.tsx:169-186 | on shows Overlay with Always-On or chosen timings, off hides every module; the new position is saved |
| EyeShowPanel.SettingChangeStops | components/EyeShow.tsx:149-208 | Always-On and duration changes hide when on and save the switch off |
| EyeShowPanel.ColorChangeSavesOldSwitch | components/EyeShow.tsx:159-166 | a colour change turns the switch off on screen but saves its old position |
| EyeShowPanel.SizeChangeRestarts | components/EyeShow.tsx:210-217 | a size change while running hides every module and shows Overlay with the new size and the chosen durations |
| EyeShowPanel.SavedPanel | components/EyeShow.tsx:69-83 | a successful save writes what `Saved` writes and also records the active overlay as 'Overlay'; a failed one writes nothing |
| EyeShowPanel.RestoredFromEmpty | components/EyeShow.tsx:86-124 | with nothing stored the mount keeps the defaults and starts nothing |
| EyeShowPanel.RestoredAsLoaded | components/EyeShow.tsx:86-124 | when both stored switches parse, the mount sets what the settings screen's load reads |
| EyeShowPanel.LoadedIgnoresActiveOverlay | components/EyeShow.tsx:78 | the active-overlay key does not affect the load |
| EyeShowPanel.RemountRestoresSettings | components/EyeShow.tsx:69-124 | after a non-colour handler and a successful save, a remount restores the settings and restarts the overlay iff it was on |
| EyeShowPanel.ColorChangeRestartsOnRemount | components/EyeShow.tsx:159-166 | after a colour change while running, the panel is off yet a remount restarts the overlay |
| EyeShowPanel.EyeShow.constructor | components/EyeShow.tsx:39-44 | the defaults, the given modules and storage, no calls |
| EyeShowPanel.EyeShow.HideOverlay | components/EyeShow.tsx:54-60 | the loop records the hide calls for every present module |
| EyeShowPanel.EyeShow.ShowOverlay | components/EyeShow.tsx:63-66 | records the show on the named module, if present |
| EyeShowPanel.EyeShow.SaveState | components/EyeShow.tsx:69-83 | the storage becomes the panel's save of the given settings |
| EyeShowPanel.EyeShow.Mount | components/EyeShow.tsx:86-124 | the panel becomes the Restored state |
| EyeShowPanel.EyeShow.HandleAlwaysOnToggle | components/EyeShow.tsx:149-156 | the Handled state of the Always-On toggle |
| EyeShowPanel.EyeShow.StopAndSave | components/EyeShow.tsx:149-156 | hides when on, turns the switch off and saves |
| EyeShowPanel.EyeShow.HandleColorChange | components/EyeShow.tsx:159-166 | the Handled state of a colour change |
| EyeShowPanel.EyeShow.HandleDefaultOverlayToggle | components/EyeShow.tsx:169-186 | the Handled state of the overlay toggle |
| EyeShowPanel.EyeShow.HandleOnDurationChange | components/EyeShow.tsx:188-197 | the Handled state of an on-duration change |
| EyeShowPanel.EyeShow.HandleOffDurationChange | components/EyeShow.tsx:199-208 | the Handled state of an off-duration change |
| EyeShowPanel.EyeShow.HandleSizeChange | components/EyeShow.tsx:210-217 | the Handled state of a size change |
| Onboarding.ButtonLabel | components/OnboardingPageView.tsx:222 | "Go Ahead" iff on the last page, "skip" otherwise |
| Onboarding.MissingModuleDenies | components/OnboardingPageView.tsx:124-157 | a missing or failing overlay or usage module denies the check; off Android everything counts as granted; below Android 13 notifications are not asked |
| Onboarding.CheckAllPermissions | components/OnboardingPageView.tsx:124-157 | the three flags combine to AllGranted; true on Android means both modules resolved true |
| Onboarding.ButtonChoice | components/OnboardingPageView.tsx:160-171 | go home iff on the last page with every permission, skip otherwise |
| Onboarding.OnboardingPageView.constructor | components/OnboardingPageView.tsx:113 | starts on the first page, which is not the last |
| Onboarding.OnboardingPageView.Scroll | components/OnboardingPageView.tsx:117-121 | the page becomes the scrolled-to index |
| Onboarding.OnboardingPageView.HandleButtonPress | components/OnboardingPageView.tsx:160-171 | the button's choice for the current page and the permissions |
| Navigation.Render | App.tsx:82-102 | each screen renders its own component, both directions |
| Navigation.RenderIsOneToOne | App.tsx:82-102 | no two screens render the same component |
| Navigation.CompletedOnboardingIsRemembered | App.tsx:23-44 | a stored 'true' flag skips onboarding; a first launch shows it |
| Navigation.FlagWritten | App.tsx:47-54 | a successful write sets the flag to 'true' and keeps every other key; a failed one changes nothing |
| Navigation.App.constructor | App.tsx:19 | the splash screen first |
| Navigation.App.CheckOnboardingStatus | App.tsx:23-44 | moves to the screen the stored flag selects; storage untouched |
| Navigation.App.HandleSkipOnboarding | App.tsx:47-54 | writes the flag and shows the permissions screen |
| Navigation.App.HandlePermissionsGranted | App.tsx:57-59 | shows the home screen |
| Navigation.App.HandleGoHome | App.tsx:62-69 | writes the flag and shows the home screen |
| Navigation.App.HandleSettingsPress | App.tsx:72-74 | shows the settings screen |
| Navigation.App.HandleBackToHome | App.tsx:77-79 | shows the home screen |
| Navigation.App.PressOnboardingButton | App.tsx:47-69 | home iff on the last page with every permission, permissions otherwise; the flag is written either way |
| Navigation.LeavingOnboardingSkipsItNextTime | App.tsx:23-69 | after either way out of onboarding with a successful write the next launch skips it |

## Left out

- Floating-point numbers are modelled as real numbers. Rounding of `Float` and `Double` arithmetic is not modelled.
- A NaN or infinite `Double` is not modelled in `toLong`/`toInt`.
- The drag position is `Int` arithmetic. Overflow is not modelled beyond the saturating conversion of the finger offset.
- Notifications, notification channels, `startForeground`, Glide's GIF loading and logging have no effect on the modelled state. The reminder notification is recorded only by its random pick, which is a parameter.
- An exception that escapes a service callback ends that callback at the point where it was thrown, and the callback reports it. What Android does next with the uncaught exception (usually ending the process) is not modelled.
- Platform.DueAfter: the services' posts are due at the unbounded sum of clock and delay. Android adds the two as 64-bit `Long`s. `AndroidDue` models that sum, and `AndroidDueAgrees` shows that the two agree while it fits a `Long`. Beyond that (a delay above `LONG_MAX` minus the clock, which `toLong()` lets through for a huge duration passed from JavaScript) the sum wraps below zero and the post runs at once (`AndroidDueWrapsPastLongMax`). The service models do not follow that wrap.
- OverlayCommands.ShowThenStartBlinksAsRequested: states the first switch at the clock plus the on-duration for every on-duration up to `LONG_MAX`. On Android that holds only while the sum fits a `Long`; see the `Platform.DueAfter` line above.
- The display density and the service's clock at creation are parameters. Later times come from the posts that fire and from `Tick`.
- Whether the blue placeholder layout holds the `eyeGif` image, and so gets a drag listener, depends on layout resources that are not part of this model. A touch is modelled as reaching the listener of whichever blue view is on screen.
- The Lavender overlay service itself and the cyan native module are not part of this model. Neither is the permission module's `requestOverlayPermission`, beyond the settings intent in `Bridge`.
- `JSON.parse` of a stored switch is modelled only for "true" and "false". Any other text counts as a throw.
- `parseFloat` of the stored size is modelled by the integer parse. The screens only ever write whole numbers.
- How the native side converts a string or `null` passed for a `Double` parameter (as the `EyeShow` restart does) is not modelled. The call records the argument as passed.
- React effect timing, state batching and re-renders are not modelled. A handler's setters take effect in order, and the effects triggered by a state change run right after it.
- `Settings.SettingsScreen`: the `Overlay?.` optional chaining is modelled as if the native module is always present.
- The notification-permission request effect of `EyeShow` is not modelled.
- `toUpperCase`/`toLowerCase` are modelled on ASCII letters only.
- The slider range 30..100 is a property of the control, not of the handlers, and is not enforced.
- `Onboarding.OnboardingPageView.Scroll` takes the page index the scroll offset rounds to, not the offset.
- The platform wrappers under `src/platform`, the React Native package classes, `ForegroundService.js` and the purely presentational components (icons, styles, charts' pixel layout) are not part of this model.
- `UsageList.UsageScreen.LoadUsageStats` takes the statistics as given. The usage screen calls `getUsageStats` without a day count, and what the native side does with the missing argument is not modelled.
- `Home.DisplayName` states the fallback's shape in `Home.DisplayNameFallback` but not the exact text a regular-expression engine would produce for non-ASCII capitals.
