/** The two-page onboarding view (`OnboardingPageView`): the page being shown, the
    check of the three permissions the app needs, and the decision of its one button. */
module Onboarding {
  import opened Platform

  /** The number of onboarding pages. */
  const PAGE_COUNT := 2

  /** `isLastPage`. */
  predicate IsLastPage(activeIndex: int) {
    activeIndex == PAGE_COUNT - 1
  }

  /** The button's label. */
  function ButtonLabel(activeIndex: int): (text: string)
    ensures text == "Go Ahead" <==> IsLastPage(activeIndex)
    ensures !IsLastPage(activeIndex) ==> text == "skip"
  {
    if IsLastPage(activeIndex) then "Go Ahead" else "skip"
  }

  /** How a native permission module answers: it is missing (or lacks the method), its
      call throws, or it resolves with a flag. */
  datatype Answer = Missing | Throws | Resolves(granted: bool)

  /** What the device reports: the platform, the Android API level, the notification
      permission check, and the two native modules' answers. */
  datatype Device = Device(isAndroid: bool, sdk: int, notificationGranted: bool, overlay: Answer, usage: Answer)

  /** A module's answer counts as a grant only when it resolves with `true`. */
  predicate Granted(a: Answer) {
    a == Resolves(true)
  }

  /** Notifications count as granted below Android 13, where nothing is asked. */
  predicate NotificationGranted(d: Device) {
    d.sdk < SDK_TIRAMISU || d.notificationGranted
  }

  /** The result `checkAllPermissions` resolves with. */
  predicate AllGranted(d: Device) {
    !d.isAndroid || (NotificationGranted(d) && Granted(d.overlay) && Granted(d.usage))
  }

  /** A missing or failing overlay or usage module denies the whole check on Android;
      off Android the check always passes. */
  lemma MissingModuleDenies(d: Device)
    ensures d.isAndroid && (d.overlay.Missing? || d.overlay.Throws? || d.usage.Missing? || d.usage.Throws?) ==>
      !AllGranted(d)
    ensures !d.isAndroid ==> AllGranted(d)
    ensures d.isAndroid && d.sdk < 33 ==> (AllGranted(d) <==> Granted(d.overlay) && Granted(d.usage))
  {
  }

  /** `checkAllPermissions`: three flags set one after the other. */
  method CheckAllPermissions(d: Device) returns (allGranted: bool)
    ensures allGranted == AllGranted(d)
    ensures allGranted ==> !d.isAndroid || (d.overlay == Resolves(true) && d.usage == Resolves(true))
  {
    if !d.isAndroid {
      return true;
    }
    var notificationGranted := true;
    if d.sdk >= SDK_TIRAMISU {
      notificationGranted := d.notificationGranted;
    }
    var overlayGranted := false;
    if d.overlay.Resolves? {
      overlayGranted := d.overlay.granted;
    }
    var usageGranted := false;
    if d.usage.Resolves? {
      usageGranted := d.usage.granted;
    }
    return notificationGranted && overlayGranted && usageGranted;
  }

  /** Which of the view's two callbacks the button calls. */
  datatype Choice = Skip | GoHome

  /** `handleButtonPress`: `onGoHome` only on the last page with every permission
      granted, `onSkip` in every other case. */
  function ButtonChoice(activeIndex: int, allGranted: bool): (c: Choice)
    ensures c == GoHome <==> IsLastPage(activeIndex) && allGranted
    ensures !IsLastPage(activeIndex) ==> c == Skip
  {
    if IsLastPage(activeIndex) && allGranted then GoHome else Skip
  }

  class OnboardingPageView {
    var activeIndex: int

    constructor ()
      ensures activeIndex == 0 && !IsLastPage(activeIndex)
    {
      activeIndex := 0;
    }

    /** `handleScroll`, given the page index the scroll offset rounds to. */
    method Scroll(index: int)
      modifies this
      ensures activeIndex == index
    {
      activeIndex := index;
    }

    method HandleButtonPress(d: Device) returns (c: Choice)
      ensures c == ButtonChoice(activeIndex, AllGranted(d))
    {
      if IsLastPage(activeIndex) {
        var allGranted := CheckAllPermissions(d);
        c := if allGranted then GoHome else Skip;
      } else {
        c := Skip;
      }
    }
  }
}
