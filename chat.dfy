/** The conversation log and the chat input's send rule. */
module Chat {
  import opened JsString

  datatype Sender = User | Echo

  /** One entry of the conversation log. */
  datatype Message = Message(id: int, text: string, time: string, sender: Sender)

  /** The four seeded entries the log starts with. */
  const Seed: seq<Message> := [
    Message(1, "I've been feeling lonely lately...", "2 min ago", User),
    Message(2, "I hear you, Alex. Loneliness can be really challenging. Would you like to talk about what's been going on?", "2 min ago", Echo),
    Message(3, "I just moved to a new city and don't know anyone here.", "1 min ago", User),
    Message(4, "Moving to a new place is a big transition. It's completely normal to feel this way. I've found some local meetup groups that match your interests. Would you like to explore them together?", "Just now", Echo)
  ]

  /** Every entry's id is its position counted from one. */
  predicate IdsArePositions(log: seq<Message>) {
    forall i :: 0 <= i < |log| ==> log[i].id == i + 1
  }

  /** The log and the input buffer after a send. */
  datatype Sent = Sent(log: seq<Message>, input: string)

  /** `handleSendMessage`: input that is empty after trimming is ignored;
      otherwise the untrimmed input is appended as a user message with the
      next id and the label "Just now", and the input is cleared. */
  function Send(log: seq<Message>, input: string): (r: Sent)
    ensures log <= r.log && |r.log| <= |log| + 1
    ensures r.log == log ==> r.input == input
  {
    if Trim(input) != [] then Sent(log + [Message(|log| + 1, input, "Just now", User)], "")
    else Sent(log, input)
  }

  /** `handleKeyPress`: Enter without Shift sends. */
  predicate SendsOnKey(key: string, shift: bool) {
    key == "Enter" && !shift
  }

  /** Blank input leaves both the log and the input as they were. */
  lemma SendBlankIsNoOp(log: seq<Message>, input: string)
    requires IsBlank(input)
    ensures Send(log, input) == Sent(log, input)
  {
    TrimEmptyIffBlank(input);
  }

  /** Non-blank input appends exactly one entry at the end, keeps every
      earlier entry, clears the input, and keeps ids equal to positions. */
  lemma SendAppendsOne(log: seq<Message>, input: string)
    requires !IsBlank(input)
    ensures var r := Send(log, input);
      |r.log| == |log| + 1 && r.log[..|log|] == log && r.input == ""
      && r.log[|log|] == Message(|log| + 1, input, "Just now", User)
      && (IdsArePositions(log) ==> IdsArePositions(r.log))
  {
    TrimEmptyIffBlank(input);
    var r := Send(log, input);
    assert r.log[..|log|] == log;
  }

  /** Every send keeps ids equal to positions. */
  lemma SendKeepsPositionalIds(log: seq<Message>, input: string)
    requires IdsArePositions(log)
    ensures IdsArePositions(Send(log, input).log)
  {
  }

  /** A send changes the log exactly when the input is not blank. */
  lemma SendChangesIffNotBlank(log: seq<Message>, input: string)
    ensures Send(log, input).log != log <==> !IsBlank(input)
  {
    TrimEmptyIffBlank(input);
    if !IsBlank(input) {
      assert |Send(log, input).log| == |log| + 1;
    }
  }

  /** Positional ids strictly increase along the log, so they are unique. */
  lemma PositionalIdsIncrease(log: seq<Message>, i: int, j: int)
    requires IdsArePositions(log)
    requires 0 <= i < j < |log|
    ensures log[i].id < log[j].id
  {
  }

  /** The seeded log already numbers its entries from one. */
  lemma SeedIdsArePositions()
    ensures IdsArePositions(Seed)
  {
  }
}
