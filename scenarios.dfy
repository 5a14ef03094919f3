/** Walkthroughs of the app that use nothing but the state container's
    contracts: what a user sees after a given sequence of presses, starting
    from any state the app can be in. */
module Scenarios {
  import opened Screens
  import opened Chat
  import Clock
  import Echo

  /** The app starts on onboarding with the seeded log and an empty input. */
  method Launch() returns (app: Echo.EchoApp)
    ensures app.Valid() && app.currentScreen == Onboarding
    ensures app.conversations == Seed && app.message == ""
  {
    app := new Echo.EchoApp();
  }

  /** From onboarding: Get Started, name "Alex", Continue, pick Reading,
      Continue, Complete Setup: the router reaches home. */
  method CompleteSetup(app: Echo.EchoApp)
    requires app.Valid() && app.currentScreen == Onboarding
    modifies app
    ensures app.Valid() && app.currentScreen == Home
  {
    app.GoTo(Setup);
    app.TypeName("Alex");
    app.PressContinue();
    app.ToggleInterest("Reading");
    app.PressContinue();
    app.PressContinue();
  }

  /** The same walk, with Reading picked and unpicked again, stops on step 3
      of setup. */
  method SetupWithoutInterests(app: Echo.EchoApp)
    requires app.Valid() && app.currentScreen == Onboarding
    modifies app
    ensures app.Valid() && app.currentScreen == Setup && app.step == 3
  {
    app.GoTo(Setup);
    app.TypeName("Alex");
    app.PressContinue();
    app.ToggleInterest("Reading");
    app.ToggleInterest("Reading");
    app.PressContinue();
    app.PressContinue();
  }

  /** From onboarding: Get Started, then Continue with the empty name stays
      on step 1. */
  method EmptyNameBlocked(app: Echo.EchoApp)
    requires app.Valid() && app.currentScreen == Onboarding
    modifies app
    ensures app.Valid() && app.currentScreen == Setup && app.step == 1
  {
    app.GoTo(Setup);
    app.PressContinue();
  }

  /** Open chat from a screen that links to it, or stay on it: the log and
      the input are kept. */
  method OpenChat(app: Echo.EchoApp)
    requires app.Valid() && (app.currentScreen == Chat || Offers(app.currentScreen, Chat))
    modifies app
    ensures app.Valid() && app.currentScreen == Chat
    ensures app.conversations == old(app.conversations) && app.message == old(app.message)
  {
    app.GoTo(Chat);
  }

  /** Open chat (or stay on it), type `text` and press Enter: blank text changes nothing;
      any other text is appended as a user message with the next id, and the
      input is cleared. */
  method TypeAndPressEnter(app: Echo.EchoApp, text: string)
    requires app.Valid() && (app.currentScreen == Chat || Offers(app.currentScreen, Chat))
    modifies app
    ensures app.Valid() && app.currentScreen == Chat
    ensures JsString.IsBlank(text) ==>
      app.conversations == old(app.conversations) && app.message == text
    ensures !JsString.IsBlank(text) ==>
      app.conversations ==
        old(app.conversations) + [Message(|old(app.conversations)| + 1, text, "Just now", User)]
      && app.message == ""
  {
    OpenChat(app);
    app.TypeMessage(text);
    JsString.TrimEmptyIffBlank(text);
    app.KeyPress("Enter", false);
  }

  /** Shift+Enter does not send, whatever was typed. */
  method TypeAndPressShiftEnter(app: Echo.EchoApp, text: string)
    requires app.Valid() && (app.currentScreen == Chat || Offers(app.currentScreen, Chat))
    modifies app
    ensures app.Valid() && app.conversations == old(app.conversations) && app.message == text
  {
    OpenChat(app);
    app.TypeMessage(text);
    app.KeyPress("Enter", true);
  }

  /** Start a call from a screen that links to it; a call left running for `seconds` ticks shows `FormatTime(seconds)`,
      which reads back as `seconds`; after ending it the router is on chat
      and further ticks change nothing. */
  method CallFor(app: Echo.EchoApp, seconds: nat) returns (face: string)
    requires app.Valid() && app.currentScreen != Voice && Offers(app.currentScreen, Voice)
    modifies app
    ensures face == Clock.FormatTime(seconds)
    ensures Clock.ParseClock(face) == Clock.Some(seconds)
    ensures app.Valid() && app.currentScreen == Chat && app.callDuration == seconds
  {
    app.GoTo(Voice);
    for i := 0 to seconds
      invariant app.Valid() && app.currentScreen == Voice && app.callDuration == i
    {
      app.Tick();
    }
    face := Clock.FormatTime(app.callDuration);
    Clock.FormatTimeRoundTrip(seconds);
    app.EndCall();
    app.Tick();
  }
}
