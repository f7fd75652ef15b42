/** The root component (`App`): which screen is showing, and the stored flag that
    sends a returning user past onboarding. */
module Navigation {
  import opened Wrappers
  import Onboarding

  const ONBOARDING_COMPLETE_KEY := "@onboarding_complete"

  datatype Screen = Splash | OnboardingScreen | Permissions | Home | Settings

  /** The component each screen renders. */
  datatype Component = SplashScreen | OnboardingPageView | PermissionsScreen | SettingsScreen | HomeScreen

  function Render(s: Screen): (c: Component)
    ensures s == Splash <==> c == SplashScreen
    ensures s == OnboardingScreen <==> c == OnboardingPageView
    ensures s == Permissions <==> c == PermissionsScreen
    ensures s == Settings <==> c == SettingsScreen
    ensures s == Home <==> c == HomeScreen
  {
    match s
    case Splash => SplashScreen
    case OnboardingScreen => OnboardingPageView
    case Permissions => PermissionsScreen
    case Settings => SettingsScreen
    case Home => HomeScreen
  }

  /** Every screen renders one component and no two screens render the same one. */
  lemma RenderIsOneToOne(a: Screen, b: Screen)
    ensures Render(a) == Render(b) ==> a == b
  {
  }

  /** The screen `checkOnboardingStatus` moves to after the splash delay: permissions
      when the stored flag is exactly 'true', onboarding otherwise and when the read
      fails. */
  function LaunchScreen(storage: map<string, string>, readFails: bool): Screen {
    if !readFails && ONBOARDING_COMPLETE_KEY in storage && storage[ONBOARDING_COMPLETE_KEY] == "true"
    then Permissions else OnboardingScreen
  }

  /** A launch after a successful write of the flag skips onboarding; a first launch
      does not. */
  lemma CompletedOnboardingIsRemembered(storage: map<string, string>)
    ensures LaunchScreen(storage[ONBOARDING_COMPLETE_KEY := "true"], false) == Permissions
    ensures ONBOARDING_COMPLETE_KEY !in storage ==> LaunchScreen(storage, false) == OnboardingScreen
  {
  }

  /** The flag write of the skip and go-home handlers; a failure is only logged. */
  function FlagWritten(storage: map<string, string>, writeFails: bool): (st: map<string, string>)
    ensures !writeFails ==> ONBOARDING_COMPLETE_KEY in st && st[ONBOARDING_COMPLETE_KEY] == "true"
    ensures writeFails ==> st == storage
    ensures forall k :: k != ONBOARDING_COMPLETE_KEY ==> (k in st <==> k in storage) && (k in st ==> st[k] == storage[k])
  {
    if writeFails then storage else storage[ONBOARDING_COMPLETE_KEY := "true"]
  }

  class App {
    var currentScreen: Screen
    var storage: map<string, string>

    constructor (stored: map<string, string>)
      ensures currentScreen == Splash && storage == stored
    {
      currentScreen, storage := Splash, stored;
    }

    /** `checkOnboardingStatus`, once the splash delay is over. */
    method CheckOnboardingStatus(readFails: bool)
      modifies this
      ensures currentScreen == LaunchScreen(storage, readFails) && storage == old(storage)
    {
      if readFails {
        currentScreen := OnboardingScreen;
        return;
      }
      var complete := if ONBOARDING_COMPLETE_KEY in storage then Some(storage[ONBOARDING_COMPLETE_KEY]) else None;
      if complete == Some("true") {
        currentScreen := Permissions;
      } else {
        currentScreen := OnboardingScreen;
      }
    }

    method HandleSkipOnboarding(writeFails: bool)
      modifies this
      ensures currentScreen == Permissions && storage == FlagWritten(old(storage), writeFails)
    {
      storage := FlagWritten(storage, writeFails);
      currentScreen := Permissions;
    }

    method HandlePermissionsGranted()
      modifies this
      ensures currentScreen == Home && storage == old(storage)
    {
      currentScreen := Home;
    }

    method HandleGoHome(writeFails: bool)
      modifies this
      ensures currentScreen == Home && storage == FlagWritten(old(storage), writeFails)
    {
      storage := FlagWritten(storage, writeFails);
      currentScreen := Home;
    }

    method HandleSettingsPress()
      modifies this
      ensures currentScreen == Settings && storage == old(storage)
    {
      currentScreen := Settings;
    }

    method HandleBackToHome()
      modifies this
      ensures currentScreen == Home && storage == old(storage)
    {
      currentScreen := Home;
    }

    /** The onboarding view's button, wired to `handleGoHome` and `handleSkipOnboarding`. */
    method PressOnboardingButton(view: Onboarding.OnboardingPageView, d: Onboarding.Device, writeFails: bool)
      modifies this
      ensures currentScreen ==
        (if Onboarding.IsLastPage(view.activeIndex) && Onboarding.AllGranted(d) then Home else Permissions)
      ensures storage == FlagWritten(old(storage), writeFails)
    {
      var choice := view.HandleButtonPress(d);
      if choice == Onboarding.GoHome {
        HandleGoHome(writeFails);
      } else {
        HandleSkipOnboarding(writeFails);
      }
    }
  }

  /** Leaving onboarding by either callback remembers it: the next launch goes straight
      to the permissions screen when the write succeeded. */
  lemma LeavingOnboardingSkipsItNextTime(storage: map<string, string>)
    ensures LaunchScreen(FlagWritten(storage, false), false) == Permissions
  {
  }
}
