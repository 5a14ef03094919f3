# Echo companion app: state model

Echo is a mobile-style companion app mockup written as a single React
component. It has eight screens: onboarding, profile setup, home, chat, voice
call, activities, wellness and settings. All of its behaviour beyond markup is
a small amount of in-memory state changed by event handlers. This project
models that state and proves its properties:

- **Screen router.** The current screen is one of eight values and starts at
  onboarding. Each screen draws its own navigation controls, and each control
  sets the current screen without further checks. Onboarding leads only to
  setup. Setup has no link; it is left only by Complete Setup. The voice
  screen leads only back to chat, and no control leads to onboarding. The
  root renders exactly the screen whose `currentScreen === s` test holds.
- **Bottom navigation bar.** It has five buttons. A button is active when
  its screen is the current one.
- **Setup wizard.** Three steps with Back and Continue buttons. Continue is
  disabled on step 1 while the name is empty. On step 3 the button reads
  Complete Setup. It routes home only when the draft has a name and at least
  one interest.
- **Tag toggle.** Interests and goals share one rule. Pressing a tag that is
  in the list removes every copy of it. Pressing a tag that is not in the
  list appends it at the end.
- **Conversation log.** Sending is `handleSendMessage`; the keyboard path is
  `handleKeyPress`. Input that is blank after `trim()` is ignored. Otherwise
  the untrimmed input is appended as a user message with id `length + 1` and
  the label "Just now", and the input is cleared. Enter without Shift sends.
- **Voice call.** Each interval tick adds one second while the call is
  active. Ending the call stops it and returns to chat. `formatTime` draws the
  elapsed seconds as zero-padded `MM:SS`.

Modules:

- `Screens` (`screens.dfy`): the `Screen` datatype, the render guards, the
  bottom bar, and `Offers`, the links each screen's controls offer.
- `Setup` (`setup.dfy`): the wizard's draft, its Continue rule and its Back
  rule.
- `Tags` (`tags.dfy`): the toggle rule.
- `JsString` (`jsstring.dfy`): ECMAScript `trim`.
- `Chat` (`chat.dfy`): the log and `Send`.
- `Clock` (`clock.dfy`): `toString`, `padStart`, `formatTime`, and
  `ParseClock`, its inverse.
- `Echo` (`app.dfy`): the class `EchoApp`, whose fields are the app's state.
  Its invariant `Valid()` says four things:
  - the wizard step is in 1..3;
  - the step is past 1 only when the name is non-empty;
  - every log id equals its position plus one;
  - the voice screen always shows a running call.
  Each method's `modifies` frame names the fields it may change, so every
  other field keeps its value. Its `ensures` give the new value of each
  field in the frame.
- `Scenarios` (`scenarios.dfy`): walkthroughs proved from the class contracts
  alone. `Launch` starts from a fresh app. Each of the others starts from any
  state that satisfies `Valid()` on a screen from which the walk's first
  control is drawn:
  - the setup walks start on onboarding;
  - the chat walks start on chat or on a screen that links to it;
  - `CallFor` starts on a screen other than voice that links to the voice
    screen.

Component-local state belongs to the setup wizard (step and draft), the
voice call (duration, active flag, mute flag) and the activity browser
(selected category). It lives in the same class. It is reset when the router
*enters* that screen, as React creates the state when the component mounts.
Each control acts only while its screen (and, for the wizard, its step) is
shown; anywhere else it is not rendered, so pressing it is modelled as a
no-op. This includes the navigation controls: `GoTo(x)` acts only when the
current screen offers a link to `x`.

Notes on the code's behaviour:

- The companion's sender value is `echo`.
- Interests and goals are lists, not sets. Toggling filters every copy out.
- The name check is plain non-emptiness, with no trimming, so `"  "` is a
  valid name.
- The bottom bar is absent from the chat screen. Each screen that draws the
  bar passes its own name as the bar's `currentScreen` prop.

## Model

| member | source | states |
|---|---|---|
| Screens.Matching | echo_companion_ui.tsx:1171-1178 | the screens that pass their render guard all equal the current screen and come from the guard list |
| Screens.IsActive | echo_companion_ui.tsx:1146 | a bar button's `isActive` test, `currentScreen === screen`; its consequences are `NavActiveIffNavScreen` and `ShownNavHasOneActive` |
| Screens.MatchingDistinct | echo_companion_ui.tsx:1146 | over a list without repetitions, exactly the entry equal to the current screen passes `currentScreen === s`, or nothing when it is absent |
| Screens.ExactlyOneRenders | echo_companion_ui.tsx:1171-1178 | for every current screen, exactly one screen renders: the current one |
| Screens.RenderOrderDistinct | echo_companion_ui.tsx:1171-1178 | no screen has two render guards |
| Screens.NavActiveIffNavScreen | echo_companion_ui.tsx:1139-1146 | exactly one bar button is active iff the current screen is one of the five bar screens; otherwise none is |
| Screens.ShownNavHasOneActive | echo_companion_ui.tsx:514 | on each host of the bar, the host's own button is the one active button, and Chat is never drawn active |
| Setup.Continue | echo_companion_ui.tsx:301-310 | the right-hand button's effect: a step forward is exactly one step and only when enabled; routing home happens only from step 3 with a complete draft |
| Setup.BackTo | echo_companion_ui.tsx:292-294 | Back goes down by exactly one step iff it is offered, and otherwise leaves the step as it is |
| Setup.ContinueAdvances | echo_companion_ui.tsx:301-310 | Continue advances iff the step is below 3 and the button is enabled, by exactly one, staying within 2..3 |
| Setup.EmptyNameStaysAtStepOne | echo_companion_ui.tsx:310 | with an empty name the button at step 1 is disabled and the step stays 1 |
| Setup.CompleteIffValid | echo_companion_ui.tsx:304-308 | at step 3 the press routes home iff the name is non-empty and there is an interest; otherwise nothing changes |
| Setup.HomeOnlyFromLastStep | echo_companion_ui.tsx:303-308 | only a press at step 3 with a complete draft routes home |
| Setup.BackStaysInRange | echo_companion_ui.tsx:292-294 | Back, offered past step 1, moves to the step below; the step stays in 1..3 |
| Tags.Remove | echo_companion_ui.tsx:233 | filtering drops every copy of the tag, keeps the multiplicity of every other tag, and is the identity when the tag is absent |
| Tags.RemoveAppend | echo_companion_ui.tsx:270 | filtering distributes over concatenation |
| Tags.RemoveKeepsDistinct | echo_companion_ui.tsx:233 | filtering a duplicate-free list leaves it duplicate-free |
| Tags.Toggle | echo_companion_ui.tsx:232-234 | the tag's membership flips: a present tag leaves no copy, an absent one becomes the last element; other tags keep their membership |
| Tags.ToggleMembership | echo_companion_ui.tsx:268-272 | for every tag: the pressed tag flips membership, every other tag keeps it |
| Tags.ToggleTwice | echo_companion_ui.tsx:232-234 | toggling an absent tag twice restores the list exactly; a present tag ends once, at the end of the filtered list |
| Tags.ToggleKeepsDistinct | echo_companion_ui.tsx:232-234 | toggling never introduces a duplicate into a duplicate-free list |
| JsString.IsJsSpace | echo_companion_ui.tsx:84 | the code points `trim()` strips: the ECMAScript WhiteSpace and LineTerminator characters; used by every `JsString` lemma |
| JsString.TrimStart | echo_companion_ui.tsx:84 | the result is a suffix, the dropped prefix is white space, and the result does not start with white space |
| JsString.TrimEnd | echo_companion_ui.tsx:84 | the result is a prefix, the dropped suffix is white space, and the result does not end with white space |
| JsString.Trim | echo_companion_ui.tsx:84 | a non-empty trimmed result starts and ends with a character that is not white space |
| JsString.LeadingBlanks | echo_companion_ui.tsx:84 | the count of leading characters `trim()` strips: that front is blank, and the rest is what trimming the start leaves |
| JsString.TrimIsMiddle | echo_companion_ui.tsx:84 | `trim()` returns the middle slice of the string between its blank front and a blank back |
| JsString.TrimEmptyIffBlank | echo_companion_ui.tsx:84 | `trim()` is empty iff every character is ECMAScript white space or a line terminator |
| JsString.TrimIdempotent | echo_companion_ui.tsx:639 | trimming a trimmed string changes nothing |
| Chat.Send | echo_companion_ui.tsx:83-94 | a send only ever extends the log, by at most one entry, and leaves the input as it was when the log does not change; `SendBlankIsNoOp` and `SendAppendsOne` give the two cases exactly |
| Chat.SendsOnKey | echo_companion_ui.tsx:97-102 | the key test `e.key === 'Enter' && !e.shiftKey`; its effect is the contract of `Echo.EchoApp.KeyPress` |
| Chat.SendBlankIsNoOp | echo_companion_ui.tsx:83-94 | sending blank input leaves both the log and the input unchanged |
| Chat.SendAppendsOne | echo_companion_ui.tsx:84-92 | sending non-blank input appends exactly one entry (id old length + 1, the untrimmed text, "Just now", user), keeps every earlier entry, clears the input, and keeps ids equal to positions |
| Chat.SendKeepsPositionalIds | echo_companion_ui.tsx:86 | every send, blank or not, keeps log ids equal to positions |
| Chat.SendChangesIffNotBlank | echo_companion_ui.tsx:84 | a send changes the log iff the input is not blank |
| Chat.PositionalIdsIncrease | echo_companion_ui.tsx:86 | in a log whose ids are positions, ids strictly increase with order |
| Chat.SeedIdsArePositions | echo_companion_ui.tsx:53-58 | the four seeded entries are numbered 1 to 4 by position |
| Clock.Decimal | echo_companion_ui.tsx:668 | `toString()` yields at least one digit and no leading zero |
| Clock.DecimalValue | echo_companion_ui.tsx:668 | the digits of `toString()` denote the number |
| Clock.DecimalLength | echo_companion_ui.tsx:668 | one digit iff below 10, at most two iff below 100 |
| Clock.PadStart | echo_companion_ui.tsx:668 | `padStart` keeps the string as its tail, fills the front, and reaches the width |
| Clock.ZeroPadValue | echo_companion_ui.tsx:668 | zero-padding keeps the digits and their value |
| Clock.Pad2 | echo_companion_ui.tsx:668 | one clock field, `toString().padStart(2, '0')`; its properties are those of `Pad2Facts` |
| Clock.Pad2Facts | echo_companion_ui.tsx:668 | a field is digits denoting its number, two characters iff the number is below 100 |
| Clock.LeadingZerosValue | echo_companion_ui.tsx:668 | any number of leading zeros keeps a digit string's digits and value |
| Clock.FaceSplit | echo_companion_ui.tsx:668 | in `m + ":" + s` with a two-character second field, the colon sits third from the end, with `m` before it and `s` after |
| Clock.FormatTime | echo_companion_ui.tsx:665-669 | `formatTime`: padded minutes, a colon, padded seconds; its properties are those of the `FormatTime` lemmas below |
| Clock.FormatTimeFields | echo_companion_ui.tsx:665-669 | the minute field denotes `floor(s / 60)` and the second field `s % 60` |
| Clock.FormatTimeReadsBack | echo_companion_ui.tsx:665-669 | the face is well formed and its minutes times 60 plus its seconds give the elapsed seconds |
| Clock.FormatTimeRoundTrip | echo_companion_ui.tsx:665-669 | parsing the face always succeeds and yields the elapsed seconds |
| Clock.FormatTimeLength | echo_companion_ui.tsx:665-669 | the face is five characters iff the duration is below 6000 seconds |
| Clock.FormatTimeExample | echo_companion_ui.tsx:665-669 | 65 seconds show as "01:05" |
| Screens.OffersAtTheEdges | echo_companion_ui.tsx:148 | only onboarding links into setup; no control links back to onboarding; setup offers no link; the voice screen links only to chat |
| Screens.RouteNeverReturns | echo_companion_ui.tsx:104-1128 | a walk along offered links that starts past the wizard never comes back to onboarding or setup |
| Echo.EchoApp.constructor | echo_companion_ui.tsx:40-58 | the app starts on onboarding with an empty input, dark mode on, the seeded log, and fresh local state |
| Echo.EchoApp.GoTo | echo_companion_ui.tsx:148 | a navigation control: where the current screen offers a link to `x`, `x` becomes the current screen, and entering a different screen resets exactly that screen's local state to its initial values; without a link, or when re-selecting the current screen, nothing changes; setup is never left this way |
| Echo.EchoApp.ToggleMenu | echo_companion_ui.tsx:359 | on home the menu flag flips; nothing else changes |
| Echo.EchoApp.ToggleDarkMode | echo_companion_ui.tsx:1044 | on settings the dark-mode flag flips; nothing else changes |
| Echo.EchoApp.ToggleListening | echo_companion_ui.tsx:624 | on chat the microphone flag flips; nothing else changes |
| Echo.EchoApp.SelectCategory | echo_companion_ui.tsx:776-779 | on activities a listed category becomes selected; the list is not filtered; nothing else changes |
| Echo.EchoApp.TypeMessage | echo_companion_ui.tsx:632 | on chat the input becomes the typed text; nothing else changes |
| Echo.EchoApp.SendMessage | echo_companion_ui.tsx:83-94 | on chat the log and input become those of `Send`; ids stay positions |
| Echo.EchoApp.KeyPress | echo_companion_ui.tsx:97-102 | on chat, Enter without Shift sends; any other key changes nothing |
| Echo.EchoApp.TypeName | echo_companion_ui.tsx:208 | at step 1 of setup the draft's name becomes the typed text; nothing else changes |
| Echo.EchoApp.ToggleInterest | echo_companion_ui.tsx:231-235 | at step 2 of setup a listed interest is toggled in the draft; nothing else changes |
| Echo.EchoApp.ToggleGoal | echo_companion_ui.tsx:268-272 | at step 3 of setup a listed goal is toggled in the draft; nothing else changes |
| Echo.EchoApp.PressBack | echo_companion_ui.tsx:292-294 | in setup past step 1 the step goes down by one; otherwise nothing changes; the step stays in 1..3 |
| Echo.EchoApp.PressContinue | echo_companion_ui.tsx:301-310 | in setup the state follows `Continue`: a step forward stays on setup, Complete Setup with a complete draft routes home keeping the step, and otherwise step and screen are unchanged; the screen leaves setup only from step 3 with a complete draft, and only to home; the step stays in 1..3 and is past 1 only with a name |
| Echo.EchoApp.Tick | echo_companion_ui.tsx:656-663 | on the voice screen with the call active the duration grows by exactly one; otherwise nothing changes |
| Echo.EchoApp.ToggleMute | echo_companion_ui.tsx:717 | on the voice screen the mute flag flips; nothing else changes |
| Echo.EchoApp.EndCall | echo_companion_ui.tsx:722-726 | the call becomes inactive and the router moves to chat; nothing else changes |
| Scenarios.Launch | echo_companion_ui.tsx:40-58 | a fresh app is valid, on onboarding, with the seeded log and an empty input |
| Scenarios.CompleteSetup | echo_companion_ui.tsx:148-310 | from onboarding, Get Started, name "Alex", one interest and Complete Setup lead home |
| Scenarios.SetupWithoutInterests | echo_companion_ui.tsx:304-308 | the same walk with the interest picked and unpicked stays on step 3 of setup |
| Scenarios.EmptyNameBlocked | echo_companion_ui.tsx:148-310 | from onboarding, on entering setup, Continue with the empty name stays on step 1 |
| Scenarios.OpenChat | echo_companion_ui.tsx:429 | opening chat from a screen that links to it keeps the log and the input |
| Scenarios.TypeAndPressEnter | echo_companion_ui.tsx:83-102 | in chat, Enter on blank text changes nothing; on any other text it appends that text as the next user message with id length + 1 and clears the input |
| Scenarios.TypeAndPressShiftEnter | echo_companion_ui.tsx:97-102 | Shift+Enter sends nothing and keeps the typed text |
| Scenarios.CallFor | echo_companion_ui.tsx:656-726 | a call left running for n ticks shows `FormatTime(n)`, which parses back to n; ending it moves the router to chat, and a further tick changes nothing |

## Left out

- Markup, styling, icons, animations and copy text are presentation only.
- `main.tsx` is not part of this model; it only mounts the component.
- The profile, the activity catalogue and the wellness figures are static
  display data. The wellness figures are floating point; none of this data
  is mutated.
- The auto-scroll effect (`scrollIntoView`) and `preventDefault` on Enter are
  DOM side effects.
- Real time: `setInterval`, `clearInterval` and the 1000 ms period are left
  out. Each interval firing is one `Tick`. Leaving the voice screen means
  no further ticks.
- Remounts caused by declaring screen components inside the root component
  are not modelled. They reset no modelled state: the screens with local
  state change root state only by navigating away. One case is not modelled:
  pressing the Activities bar button while already on activities might reset
  the selected category. `GoTo` keeps the category in that case.
- Echo.EchoApp.GoTo: a transition to the current screen is treated as
  changing nothing, as React skips the update for an equal value.
- Echo.EchoApp.TypeName, ToggleInterest and ToggleGoal accept only the
  controls drawn on their step. Text is taken as a sequence of Unicode
  scalar values, not UTF-16 code units. Lone surrogates are not modelled.
- Clock.FormatTime: the duration is an unbounded natural number.
  `Number.prototype.toString` switches to exponent notation from 10^21 on;
  that is not modelled.
