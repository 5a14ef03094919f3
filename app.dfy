/** The companion app's state container: the root component's state (the
    current screen, the chat input, the conversation log and three display
    flags) together with the local state of the three screens that keep any
    (the setup wizard, the voice call, the activity browser). A screen's local
    state is created afresh whenever the router enters that screen, as a
    component's state is on mounting; while the screen is not shown its
    fields are not observable. Every method's frame names the fields it may
    change, so every other field keeps its value. */
module Echo {
  import opened Screens
  import opened Setup
  import opened Chat
  import Tags

  /** The activity browser's category buttons. */
  const Categories: seq<string> := ["All", "Social", "Fitness", "Entertainment", "Volunteering"]

  /** Following a link from `from` to `to` mounts screen `s` afresh. */
  predicate Mounts(from: Screen, to: Screen, s: Screen) {
    Offers(from, to) && from != to && to == s
  }

  class EchoApp {
    // root component state
    var currentScreen: Screen
    var menuOpen: bool
    var isListening: bool
    var darkMode: bool
    var message: string
    var conversations: seq<Message>
    // setup wizard
    var step: int
    var setupData: SetupData
    // voice call
    var callDuration: nat
    var isCallActive: bool
    var isMuted: bool
    // activity browser
    var selectedCategory: string

    /** The wizard step stays in 1..3 and is past 1 only with a name; log ids
        are positions; the voice screen only ever shows a running call. */
    ghost predicate Valid()
      reads this
    {
      1 <= step <= 3
      && (step > 1 ==> setupData.name != "")
      && IdsArePositions(conversations)
      && (currentScreen == Voice ==> isCallActive)
    }

    constructor ()
      ensures Valid()
      ensures currentScreen == Onboarding
      ensures !menuOpen && !isListening && darkMode
      ensures message == "" && conversations == Seed
      ensures step == 1 && setupData == EmptyDraft
      ensures callDuration == 0 && isCallActive && !isMuted
      ensures selectedCategory == "All"
    {
      currentScreen := Onboarding;
      menuOpen, isListening, darkMode := false, false, true;
      message := "";
      conversations := Seed;
      step, setupData := 1, EmptyDraft;
      callDuration, isCallActive, isMuted := 0, true, false;
      selectedCategory := "All";
    }

    // ---------------------------------------------------------------- router

    /** A navigation control, `setCurrentScreen(x)`: it exists only where the
        current screen offers `x`, and pressing it makes `x` the one current
        screen. Entering a different screen mounts its local state afresh;
        re-selecting the current screen changes nothing. Setup offers no
        link: the wizard is left only by Complete Setup. */
    method GoTo(x: Screen)
      requires Valid()
      modifies this`currentScreen, this`step, this`setupData,
               this`callDuration, this`isCallActive, this`isMuted, this`selectedCategory
      ensures Valid()
      ensures currentScreen == if Offers(old(currentScreen), x) then x else old(currentScreen)
      ensures old(currentScreen) == Setup ==> currentScreen == Setup
      ensures Mounts(old(currentScreen), x, Setup) ==> step == 1 && setupData == EmptyDraft
      ensures !Mounts(old(currentScreen), x, Setup) ==>
        step == old(step) && setupData == old(setupData)
      ensures Mounts(old(currentScreen), x, Voice) ==> callDuration == 0 && isCallActive && !isMuted
      ensures !Mounts(old(currentScreen), x, Voice) ==>
        callDuration == old(callDuration) && isCallActive == old(isCallActive) && isMuted == old(isMuted)
      ensures selectedCategory ==
        if Mounts(old(currentScreen), x, Activities) then "All" else old(selectedCategory)
    {
      if Offers(currentScreen, x) && currentScreen != x {
        if x == Setup {
          step, setupData := 1, EmptyDraft;
        } else if x == Voice {
          callDuration, isCallActive, isMuted := 0, true, false;
        } else if x == Activities {
          selectedCategory := "All";
        }
        currentScreen := x;
      }
    }

    // --------------------------------------------------- display-only flags

    /** The menu button of the home screen. */
    method ToggleMenu()
      requires Valid()
      modifies this`menuOpen
      ensures Valid()
      ensures menuOpen == if currentScreen == Home then !old(menuOpen) else old(menuOpen)
    {
      if currentScreen == Home {
        menuOpen := !menuOpen;
      }
    }

    /** The dark-mode switch of the settings screen. */
    method ToggleDarkMode()
      requires Valid()
      modifies this`darkMode
      ensures Valid()
      ensures darkMode == if currentScreen == Settings then !old(darkMode) else old(darkMode)
    {
      if currentScreen == Settings {
        darkMode := !darkMode;
      }
    }

    /** The microphone button of the chat screen. */
    method ToggleListening()
      requires Valid()
      modifies this`isListening
      ensures Valid()
      ensures isListening == if currentScreen == Chat then !old(isListening) else old(isListening)
    {
      if currentScreen == Chat {
        isListening := !isListening;
      }
    }

    /** A category button of the activity browser; the choice is only shown,
        it does not filter the list. */
    method SelectCategory(cat: string)
      requires Valid()
      modifies this`selectedCategory
      ensures Valid()
      ensures selectedCategory ==
        if currentScreen == Activities && cat in Categories then cat else old(selectedCategory)
    {
      if currentScreen == Activities && cat in Categories {
        selectedCategory := cat;
      }
    }

    // ---------------------------------------------------------------- chat

    /** The chat input's `onChange`. */
    method TypeMessage(text: string)
      requires Valid()
      modifies this`message
      ensures Valid()
      ensures message == if currentScreen == Chat then text else old(message)
    {
      if currentScreen == Chat {
        message := text;
      }
    }

    /** The send button, `handleSendMessage`. */
    method SendMessage()
      requires Valid()
      modifies this`conversations, this`message
      ensures Valid()
      ensures currentScreen == Chat ==>
        conversations == Send(old(conversations), old(message)).log
        && message == Send(old(conversations), old(message)).input
      ensures currentScreen != Chat ==>
        conversations == old(conversations) && message == old(message)
    {
      if currentScreen == Chat {
        var sent := Send(conversations, message);
        SendKeepsPositionalIds(conversations, message);
        conversations, message := sent.log, sent.input;
      }
    }

    /** The chat input's `handleKeyPress`: Enter without Shift sends. */
    method KeyPress(key: string, shift: bool)
      requires Valid()
      modifies this`conversations, this`message
      ensures Valid()
      ensures currentScreen == Chat && SendsOnKey(key, shift) ==>
        conversations == Send(old(conversations), old(message)).log
        && message == Send(old(conversations), old(message)).input
      ensures !(currentScreen == Chat && SendsOnKey(key, shift)) ==>
        conversations == old(conversations) && message == old(message)
    {
      if SendsOnKey(key, shift) {
        SendMessage();
      }
    }

    // -------------------------------------------------------- setup wizard

    /** The name field of step 1. */
    method TypeName(name: string)
      requires Valid()
      modifies this`setupData
      ensures Valid()
      ensures setupData ==
        if currentScreen == Setup && step == 1 then old(setupData).(name := name) else old(setupData)
    {
      if currentScreen == Setup && step == 1 {
        setupData := setupData.(name := name);
      }
    }

    /** An interest button of step 2. */
    method ToggleInterest(tag: string)
      requires Valid()
      modifies this`setupData
      ensures Valid()
      ensures setupData ==
        if currentScreen == Setup && step == 2 && tag in InterestOptions
        then old(setupData).(interests := Tags.Toggle(old(setupData).interests, tag))
        else old(setupData)
    {
      if currentScreen == Setup && step == 2 && tag in InterestOptions {
        setupData := setupData.(interests := Tags.Toggle(setupData.interests, tag));
      }
    }

    /** A goal button of step 3. */
    method ToggleGoal(tag: string)
      requires Valid()
      modifies this`setupData
      ensures Valid()
      ensures setupData ==
        if currentScreen == Setup && step == 3 && tag in GoalOptions
        then old(setupData).(goals := Tags.Toggle(old(setupData).goals, tag))
        else old(setupData)
    {
      if currentScreen == Setup && step == 3 && tag in GoalOptions {
        setupData := setupData.(goals := Tags.Toggle(setupData.goals, tag));
      }
    }

    /** The Back button, drawn past step 1. */
    method PressBack()
      requires Valid()
      modifies this`step
      ensures Valid()
      ensures step == if currentScreen == Setup then BackTo(old(step)) else old(step)
    {
      if currentScreen == Setup && BackOffered(step) {
        step := step - 1;
      }
    }

    /** The Continue / Complete Setup button. Completing setup routes home;
        as the home screen keeps no local state, that is `GoTo(Home)`. */
    method PressContinue()
      requires Valid()
      modifies this`step, this`currentScreen
      ensures Valid()
      ensures old(currentScreen) == Setup && Continue(old(step), setupData).StepTo? ==>
        step == Continue(old(step), setupData).step && currentScreen == Setup
      ensures old(currentScreen) == Setup && Continue(old(step), setupData).EnterHome? ==>
        step == old(step) && currentScreen == Home
      ensures old(currentScreen) != Setup || Continue(old(step), setupData).Stay? ==>
        step == old(step) && currentScreen == old(currentScreen)
      ensures old(currentScreen) == Setup && currentScreen != Setup ==>
        old(step) == 3 && CanComplete(setupData) && currentScreen == Home
    {
      if currentScreen == Setup {
        match Continue(step, setupData) {
          case Stay =>
          case StepTo(s) =>
            step := s;
          case EnterHome =>
            currentScreen := Home;
        }
      }
    }

    // ---------------------------------------------------------- voice call

    /** One firing of the call's one-second interval: it runs only while the
        voice screen shows an active call. */
    method Tick()
      requires Valid()
      modifies this`callDuration
      ensures Valid()
      ensures callDuration ==
        if currentScreen == Voice && isCallActive then old(callDuration) + 1 else old(callDuration)
    {
      if currentScreen == Voice && isCallActive {
        callDuration := callDuration + 1;
      }
    }

    /** The mute button of the voice screen. */
    method ToggleMute()
      requires Valid()
      modifies this`isMuted
      ensures Valid()
      ensures isMuted == if currentScreen == Voice then !old(isMuted) else old(isMuted)
    {
      if currentScreen == Voice {
        isMuted := !isMuted;
      }
    }

    /** The end-call button: the call stops and the router returns to chat. */
    method EndCall()
      requires Valid()
      modifies this`isCallActive, this`currentScreen
      ensures Valid()
      ensures old(currentScreen) == Voice ==> !isCallActive && currentScreen == Chat
      ensures old(currentScreen) != Voice ==>
        isCallActive == old(isCallActive) && currentScreen == old(currentScreen)
    {
      if currentScreen == Voice {
        isCallActive := false;
        currentScreen := Chat;
      }
    }
  }
}
