/** A confirm-PIN session as a sequence of events. The result callback is one
    more event: the repository is assumed to answer a set-PIN request at most
    once and only after it was made; a request may stay unanswered. */
module ConfirmSession {
  import opened KbsTypes
  import opened ConfirmKbsPin

  /** The events that drive the screen. */
  datatype Event =
    | EnterText(text: string)
    | ToggleKeyboard
    | PressConfirm
    | AnimationComplete
    | RepositoryResult(result: PinSetResult)

  /** The state after a sequence of events and the set-PIN requests they made, in order. */
  datatype Trace = Trace(final: State, requests: seq<Request>)

  /** One event: the next state and the set-PIN request the event made, if any.
      Only a confirm whose entry matches makes a request, and no event changes
      the PIN to confirm. */
  function Step(s: State, e: Event, parse: string -> KbsPin): (o: Outcome)
    ensures o.state.pinToConfirm == s.pinToConfirm
    ensures o.request.Some? <==> e.PressConfirm? && Matches(s)
    ensures o.request.Some? ==> o.request.value == Request(s.pinToConfirm, s.keyboard)
    ensures o.state.saveAnimation == Loading && s.saveAnimation != Loading ==> o.request.Some?
  {
    match e
    case EnterText(text) => Outcome(SetUserEntry(s, text, parse), None)
    case ToggleKeyboard => Outcome(ToggleAlphaNumeric(s), None)
    case PressConfirm => Confirm(s)
    case AnimationComplete => Outcome(OnLoadingAnimationComplete(s), None)
    case RepositoryResult(result) => Outcome(HandleResult(s, result), None)
  }

  /** The requests an optional request contributes to a trace. */
  function Emitted(request: Option<Request>): (rs: seq<Request>)
    ensures |rs| <= 1
    ensures request.None? <==> rs == []
    ensures request.Some? ==> rs == [request.value]
  {
    match request
    case None => []
    case Some(r) => [r]
  }

  /** Runs the events in order from `s`. The PIN to confirm survives every
      event, every request carries it, and there are no more requests than events. */
  function Run(s: State, events: seq<Event>, parse: string -> KbsPin): (r: Trace)
    ensures r.final.pinToConfirm == s.pinToConfirm
    ensures |r.requests| <= |events|
    ensures forall i :: 0 <= i < |r.requests| ==> r.requests[i].pin == s.pinToConfirm
    decreases |events|
  {
    if |events| == 0 then Trace(s, [])
    else
      var o := Step(s, events[0], parse);
      var rest := Run(o.state, events[1..], parse);
      Trace(rest.final, Emitted(o.request) + rest.requests)
  }

  /** Whether every result event in `events` answers a request still waiting
      for its answer; `pending` is the number waiting before the first event. */
  predicate Admissible(s: State, events: seq<Event>, pending: nat, parse: string -> KbsPin)
    decreases |events|
  {
    if |events| == 0 then true
    else
      var o := Step(s, events[0], parse);
      var made := if o.request.Some? then 1 else 0;
      && (events[0].RepositoryResult? ==> pending > 0)
      && Admissible(o.state, events[1..], pending + made - (if events[0].RepositoryResult? then 1 else 0), parse)
  }

  /** The link between the save animation, the label and the number of
      requests made so far: there is no save animation exactly when no request
      has been made, and the screen only says it is creating the PIN after a
      request has been made. */
  predicate Consistent(s: State, issued: nat) {
    && (s.saveAnimation == NoAnimation <==> issued == 0)
    && (s.currentLabel == CreatingPin ==> issued > 0)
  }

  /** A fresh screen shows no save animation and the "re-enter PIN" label, and
      is consistent with no requests made and with no other count. */
  lemma InitConsistent(pinToConfirm: KbsPin, keyboard: KeyboardType)
    ensures Init(pinToConfirm, keyboard).saveAnimation == NoAnimation
    ensures Init(pinToConfirm, keyboard).currentLabel == ReEnterPin
    ensures forall n: nat :: Consistent(Init(pinToConfirm, keyboard), n) <==> n == 0
  {
  }

  /** Every admissible run keeps the state consistent with the number of
      requests made. */
  lemma {:induction false} RunKeepsConsistent(
    s: State, events: seq<Event>, pending: nat, issued: nat, parse: string -> KbsPin)
    requires Consistent(s, issued)
    requires pending <= issued
    requires Admissible(s, events, pending, parse)
    ensures Consistent(Run(s, events, parse).final, issued + |Run(s, events, parse).requests|)
    decreases |events|
  {
    if |events| > 0 {
      var e := events[0];
      var o := Step(s, e, parse);
      var made := if o.request.Some? then 1 else 0;
      var pending' := pending + made - (if e.RepositoryResult? then 1 else 0);
      assert Consistent(o.state, issued + made);
      RunKeepsConsistent(o.state, events[1..], pending', issued + made, parse);
    }
  }

  /** Over any admissible session that starts on a fresh screen: the save
      animation has left NONE exactly when at least one set-PIN request was
      made, the screen says it is creating the PIN only after a request, and
      every request carries the PIN to confirm. */
  lemma {:induction false} SessionInvariant(
    pinToConfirm: KbsPin, keyboard: KeyboardType, events: seq<Event>, parse: string -> KbsPin)
    requires Admissible(Init(pinToConfirm, keyboard), events, 0, parse)
    ensures var r := Run(Init(pinToConfirm, keyboard), events, parse);
      && (r.final.saveAnimation == NoAnimation <==> |r.requests| == 0)
      && (r.final.currentLabel == CreatingPin ==> |r.requests| > 0)
      && (forall i :: 0 <= i < |r.requests| ==> r.requests[i].pin == pinToConfirm)
  {
    InitConsistent(pinToConfirm, keyboard);
    RunKeepsConsistent(Init(pinToConfirm, keyboard), events, 0, 0, parse);
  }

  /** A confirm is the only way into the loading animation, and a matching
      confirm always gets there. */
  lemma LoadingOnlyByMatchingConfirm(s: State, e: Event, parse: string -> KbsPin)
    requires s.saveAnimation != Loading
    ensures Step(s, e, parse).state.saveAnimation == Loading <==> e.PressConfirm? && Matches(s)
  {
    if e.PressConfirm? && Matches(s) {
      assert Confirm(s).state.saveAnimation == Loading;
    }
  }

  /** Events other than a confirm make no set-PIN request. */
  lemma {:induction false} NoConfirmNoRequest(s: State, events: seq<Event>, parse: string -> KbsPin)
    requires forall i :: 0 <= i < |events| ==> !events[i].PressConfirm?
    ensures Run(s, events, parse).requests == []
    decreases |events|
  {
    if |events| > 0 {
      NoConfirmNoRequest(Step(s, events[0], parse).state, events[1..], parse);
    }
  }

  /** After a confirm the entry stays empty until the user types again: any
      run whose event `k` is a confirm and whose later events type nothing
      ends with the empty entry. */
  lemma {:induction false} ConfirmClearsEntry(s: State, events: seq<Event>, k: nat, parse: string -> KbsPin)
    requires k < |events| && events[k] == PressConfirm
    requires forall j :: k < j < |events| ==> !events[j].EnterText?
    ensures Run(s, events, parse).final.userEntry == Empty
    decreases |events|
  {
    var o := Step(s, events[0], parse);
    if k == 0 {
      ClearedEntryStaysEmpty(o.state, events[1..], parse);
    } else {
      ConfirmClearsEntry(o.state, events[1..], k - 1, parse);
    }
  }

  /** From an empty entry, events that type nothing keep it empty; a confirm
      among them clears it again. */
  lemma {:induction false} ClearedEntryStaysEmpty(s: State, events: seq<Event>, parse: string -> KbsPin)
    requires s.userEntry == Empty
    requires forall i :: 0 <= i < |events| ==> !events[i].EnterText?
    ensures Run(s, events, parse).final.userEntry == Empty
    decreases |events|
  {
    if |events| > 0 {
      ClearedEntryStaysEmpty(Step(s, events[0], parse).state, events[1..], parse);
    }
  }

  /** Typing the chosen PIN again, confirming, a successful save and the end
      of the animation: one request with the PIN and the keyboard mode, the
      success animation kept, the label cleared and the entry empty. */
  lemma MatchingSessionScenario(keyboard: KeyboardType, parse: string -> KbsPin)
    requires parse("1234") == KbsPin("1234")
    ensures var r := Run(Init(KbsPin("1234"), keyboard),
                         [EnterText("1234"), PressConfirm, RepositoryResult(Success), AnimationComplete], parse);
      && r.requests == [Request(KbsPin("1234"), keyboard)]
      && r.final == State(Empty, keyboard, SuccessAnimation, EmptyLabel, KbsPin("1234"))
  {
    var events := [EnterText("1234"), PressConfirm, RepositoryResult(Success), AnimationComplete];
    var s0 := Init(KbsPin("1234"), keyboard);
    var s1 := SetUserEntry(s0, "1234", parse);
    var s2 := Confirm(s1).state;
    var s3 := HandleResult(s2, Success);
    var s4 := OnLoadingAnimationComplete(s3);
    assert Run(s4, events[4..], parse) == Trace(s4, []);
    assert Run(s3, events[3..], parse) == Trace(s4, []);
    assert Run(s2, events[2..], parse) == Trace(s4, []);
    assert Run(s1, events[1..], parse) == Trace(s4, [Request(KbsPin("1234"), keyboard)]);
  }

  /** Typing a different PIN and confirming: no request, the mismatch label,
      the entry empty and the save animation untouched. */
  lemma MismatchingSessionScenario(keyboard: KeyboardType, parse: string -> KbsPin)
    requires parse("4321") == KbsPin("4321")
    ensures var r := Run(Init(KbsPin("1234"), keyboard), [EnterText("4321"), PressConfirm], parse);
      && r.requests == []
      && r.final == State(Empty, keyboard, NoAnimation, PinDoesNotMatch, KbsPin("1234"))
  {
    var events := [EnterText("4321"), PressConfirm];
    var s1 := SetUserEntry(Init(KbsPin("1234"), keyboard), "4321", parse);
    var s2 := Confirm(s1).state;
    assert Run(s2, events[2..], parse) == Trace(s2, []);
    assert Run(s1, events[1..], parse) == Trace(s2, []);
  }
}
