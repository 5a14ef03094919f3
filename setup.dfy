/** The setup wizard's three steps and its Continue / Complete Setup button. */
module Setup {

  /** The wizard's draft answers (`setupData`). */
  datatype SetupData = SetupData(name: string, interests: seq<string>, goals: seq<string>)

  /** The draft the wizard starts from. */
  const EmptyDraft: SetupData := SetupData("", [], [])

  /** The interest buttons of step 2. */
  const InterestOptions: seq<string> :=
    ["Reading", "Fitness", "Gaming", "Cooking", "Music", "Art", "Outdoor", "Tech", "Animals", "Sports"]

  /** The goal buttons of step 3. */
  const GoalOptions: seq<string> :=
    ["Make new friends", "Join activities", "Improve wellbeing", "Build confidence", "Stay active"]

  /** The Continue button is disabled on step 1 while the name is empty. */
  predicate ContinueDisabled(step: int, draft: SetupData) {
    step == 1 && draft.name == ""
  }

  /** The draft may finish setup: any non-empty name (white space counts)
      and at least one interest. */
  predicate CanComplete(draft: SetupData) {
    draft.name != "" && |draft.interests| > 0
  }

  /** The Back button is drawn only past step 1. */
  predicate BackOffered(step: int) {
    step > 1
  }

  /** What pressing the right-hand button does. */
  datatype Press = Stay | StepTo(step: int) | EnterHome

  /** The right-hand button: nothing while disabled; Continue below step 3;
      Complete Setup on step 3, which routes home only for a complete draft. */
  function Continue(step: int, draft: SetupData): (r: Press)
    ensures r.StepTo? ==> r.step == step + 1 && !ContinueDisabled(step, draft)
    ensures r.EnterHome? ==> step >= 3 && CanComplete(draft)
  {
    if ContinueDisabled(step, draft) then Stay
    else if step < 3 then StepTo(step + 1)
    else if CanComplete(draft) then EnterHome
    else Stay
  }

  /** What the Back button leads to; at step 1 there is no button. */
  function BackTo(step: int): (r: int)
    ensures step - 1 <= r <= step
    ensures r == step - 1 <==> BackOffered(step)
  {
    if BackOffered(step) then step - 1 else step
  }

  /** Continue advances by exactly one step, only below step 3, and only when
      it is enabled; the step never leaves 1..3. */
  lemma ContinueAdvances(step: int, draft: SetupData)
    requires 1 <= step <= 3
    ensures Continue(step, draft).StepTo? <==> step < 3 && !ContinueDisabled(step, draft)
    ensures Continue(step, draft).StepTo? ==>
      Continue(step, draft).step == step + 1 && 2 <= Continue(step, draft).step <= 3
  {
  }

  /** With an empty name the wizard cannot leave step 1. */
  lemma EmptyNameStaysAtStepOne(draft: SetupData)
    requires draft.name == ""
    ensures Continue(1, draft) == Stay
  {
  }

  /** Complete Setup routes home exactly when the draft has a name and an
      interest; otherwise the press changes nothing. */
  lemma CompleteIffValid(draft: SetupData)
    ensures Continue(3, draft) == EnterHome <==> draft.name != "" && |draft.interests| > 0
    ensures Continue(3, draft) != EnterHome ==> Continue(3, draft) == Stay
  {
  }

  /** Only step 3 can route home. */
  lemma HomeOnlyFromLastStep(step: int, draft: SetupData)
    requires 1 <= step <= 3
    requires Continue(step, draft) == EnterHome
    ensures step == 3 && CanComplete(draft)
  {
  }

  /** Back moves one step down past step 1 and keeps the step in 1..3. */
  lemma BackStaysInRange(step: int)
    requires 1 <= step <= 3
    ensures 1 <= BackTo(step) <= 3
    ensures BackOffered(step) ==> BackTo(step) == step - 1
    ensures !BackOffered(step) ==> BackTo(step) == 1
  {
  }
}
