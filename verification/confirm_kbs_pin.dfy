/** The confirm-PIN screen's state and the transition for each of its events.
    Every transition is a pure function from the state before the event to the
    state after it; the set-PIN call that a matching confirm makes is returned
    as a `Request` instead of being performed. */
module ConfirmKbsPin {
  import opened KbsTypes

  /** The instructional text shown above the entry field. */
  datatype Label = ReEnterPin | PinDoesNotMatch | CreatingPin | EmptyLabel

  /** The phase of the save animation. */
  datatype SaveAnimation = NoAnimation | Loading | SuccessAnimation | FailureAnimation

  /** The screen's state: the four observable fields and the PIN chosen on the
      previous screen, which the user must enter again. */
  datatype State = State(
    userEntry: KbsPin,
    keyboard: KeyboardType,
    saveAnimation: SaveAnimation,
    currentLabel: Label,
    pinToConfirm: KbsPin)

  /** The result of an event: the next state and the set-PIN request made, if any. */
  datatype Outcome = Outcome(state: State, request: Option<Request>)

  /** Whether the current entry has the same string form as the PIN to confirm. */
  predicate Matches(s: State) {
    SameText(s.pinToConfirm, s.userEntry)
  }

  /** Whether two states agree on every field except, possibly, the user entry. */
  predicate SameExceptEntry(s: State, t: State) {
    && t.keyboard == s.keyboard
    && t.saveAnimation == s.saveAnimation
    && t.currentLabel == s.currentLabel
    && t.pinToConfirm == s.pinToConfirm
  }

  /** The state of a freshly created screen. */
  function Init(pinToConfirm: KbsPin, keyboard: KeyboardType): (s: State)
    ensures s.userEntry == Empty
    ensures s.keyboard == keyboard
    ensures s.saveAnimation == NoAnimation
    ensures s.currentLabel == ReEnterPin
    ensures s.pinToConfirm == pinToConfirm
  {
    State(Empty, keyboard, NoAnimation, ReEnterPin, pinToConfirm)
  }

  /** The user pressed confirm. The entry is always cleared; the comparison
      uses the entry as it was before clearing. On a match the screen shows
      that the PIN is being created, starts the loading animation and asks the
      repository to store the PIN with the current keyboard mode; otherwise it
      only says that the PINs differ. */
  function Confirm(s: State): (o: Outcome)
    ensures o.state.userEntry == Empty
    ensures o.state.keyboard == s.keyboard
    ensures o.state.pinToConfirm == s.pinToConfirm
    ensures o.request.Some? <==> s.pinToConfirm.text == s.userEntry.text
    ensures s.pinToConfirm.text == s.userEntry.text ==>
      && o.state.currentLabel == CreatingPin
      && o.state.saveAnimation == Loading
      && o.request == Some(Request(s.pinToConfirm, s.keyboard))
    ensures s.pinToConfirm.text != s.userEntry.text ==>
      && o.state.currentLabel == PinDoesNotMatch
      && o.state.saveAnimation == s.saveAnimation
  {
    var entry := s.userEntry;
    var cleared := s.(userEntry := Empty);
    if SameText(s.pinToConfirm, entry) then
      Outcome(
        cleared.(currentLabel := CreatingPin, saveAnimation := Loading),
        Some(Request(s.pinToConfirm, s.keyboard)))
    else
      Outcome(cleared.(currentLabel := PinDoesNotMatch), None)
  }

  /** The success or failure animation finished playing: the label is cleared
      and nothing else changes; the save animation is not reset. */
  function OnLoadingAnimationComplete(s: State): (t: State)
    ensures t.currentLabel == EmptyLabel
    ensures t.userEntry == s.userEntry
    ensures t.keyboard == s.keyboard
    ensures t.saveAnimation == s.saveAnimation
    ensures t.pinToConfirm == s.pinToConfirm
  {
    s.(currentLabel := EmptyLabel)
  }

  /** The text in the entry field changed. `parse` stands for the PIN
      constructor `KbsPin.from`, whose definition is not part of this model. */
  function SetUserEntry(s: State, text: string, parse: string -> KbsPin): (t: State)
    ensures t.userEntry == parse(text)
    ensures SameExceptEntry(s, t)
  {
    s.(userEntry := parse(text))
  }

  /** The user switched between the numeric and the alphanumeric keyboard. */
  function ToggleAlphaNumeric(s: State): (t: State)
    ensures t.keyboard == s.keyboard.Other()
    ensures t.keyboard != s.keyboard
    ensures t.userEntry == s.userEntry
    ensures t.saveAnimation == s.saveAnimation
    ensures t.currentLabel == s.currentLabel
    ensures t.pinToConfirm == s.pinToConfirm
  {
    s.(keyboard := s.keyboard.Other())
  }

  /** The repository reported the end of a set-PIN attempt: the save animation
      shows the outcome and nothing else changes. */
  function HandleResult(s: State, result: PinSetResult): (t: State)
    ensures result == Success ==> t.saveAnimation == SuccessAnimation
    ensures result == Failure ==> t.saveAnimation == FailureAnimation
    ensures t.saveAnimation != NoAnimation && t.saveAnimation != Loading
    ensures t.userEntry == s.userEntry
    ensures t.keyboard == s.keyboard
    ensures t.currentLabel == s.currentLabel
    ensures t.pinToConfirm == s.pinToConfirm
  {
    match result
    case Success => s.(saveAnimation := SuccessAnimation)
    case Failure => s.(saveAnimation := FailureAnimation)
  }

  /** Entering the same text twice leaves the screen as entering it once. */
  lemma SetUserEntryIdempotent(s: State, text: string, parse: string -> KbsPin)
    ensures SetUserEntry(SetUserEntry(s, text, parse), text, parse) == SetUserEntry(s, text, parse)
  {
  }

  /** Only the last entry counts: entering `a` and then `b` is entering `b`. */
  lemma SetUserEntryOverwrites(s: State, a: string, b: string, parse: string -> KbsPin)
    ensures SetUserEntry(SetUserEntry(s, a, parse), b, parse) == SetUserEntry(s, b, parse)
  {
  }

  /** Toggling the keyboard twice restores the whole state. */
  lemma ToggleTwiceRestores(s: State)
    ensures ToggleAlphaNumeric(ToggleAlphaNumeric(s)) == s
  {
    OtherIsInvolution(s.keyboard);
  }

  /** Clearing the label twice is clearing it once. */
  lemma AnimationCompleteIdempotent(s: State)
    ensures OnLoadingAnimationComplete(OnLoadingAnimationComplete(s)) == OnLoadingAnimationComplete(s)
  {
  }

  /** A repeated result overwrites the earlier one: only the last outcome shows. */
  lemma HandleResultLastWins(s: State, first: PinSetResult, second: PinSetResult)
    ensures HandleResult(HandleResult(s, first), second) == HandleResult(s, second)
  {
  }

  /** The result callback and the end of the animation touch different fields,
      so the order in which they arrive does not matter. */
  lemma ResultAndAnimationCommute(s: State, result: PinSetResult)
    ensures OnLoadingAnimationComplete(HandleResult(s, result))
         == HandleResult(OnLoadingAnimationComplete(s), result)
  {
  }

  /** Because confirm clears the entry, pressing confirm a second time without
      typing again can only match, and so only make a second set-PIN request,
      when the PIN to confirm is itself empty. */
  lemma RepeatedConfirmReusesNoEntry(s: State)
    ensures Confirm(Confirm(s).state).request.Some? <==> s.pinToConfirm.text == ""
    ensures s.pinToConfirm.text != "" ==> Confirm(Confirm(s).state).state.currentLabel == PinDoesNotMatch
  {
  }
}
