# Confirm-PIN screen state machine

This project models the presentation state of Signal's "confirm your PIN" screen
(`ConfirmKbsPinViewModel`). The user types the PIN chosen on the previous screen
a second time and presses confirm. If the two match, the screen asks the
key-backup-service (KBS) repository to store the PIN and plays a save animation.
If they differ, it says so.

The state is one immutable record, `ConfirmKbsPin.State`. It holds the four
observable fields: user entry, keyboard type, save-animation phase and label.
It also holds the PIN to confirm, which is fixed when the screen is created.
Each event is a pure function from the state before to the state after:

- `SetUserEntry`
- `ToggleAlphaNumeric`
- `Confirm`
- `OnLoadingAnimationComplete`
- `HandleResult`, the repository's result callback

`Confirm` does not call the repository. It returns the set-PIN request it would
make, as `Option<Request>`, with the PIN and the keyboard mode.

`ConfirmSession` strings events together. `Run` folds a sequence of events and
collects the requests made. `Admissible` states the assumption about the
environment: the repository answers only requests that are still waiting for
an answer. Under that assumption, `SessionInvariant` proves three things for
every session that starts on a fresh screen:

- the save animation has left NONE exactly when a request has been made;
- the label reads "creating PIN" only after a request;
- every request carries the PIN to confirm.

Files:
- `kbs_types.dfy`: module `KbsTypes`, the PIN, keyboard mode, repository outcome and request.
- `confirm_kbs_pin.dfy`: module `ConfirmKbsPin`, the state, the five transitions, and lemmas relating them.
- `confirm_session.dfy`: module `ConfirmSession`, events, runs, and the session invariants.

Names: the source's `Label.EMPTY` is `EmptyLabel`. This keeps it apart from the
empty PIN `Empty`. The source's `SaveAnimation` values NONE, LOADING, SUCCESS
and FAILURE are `NoAnimation`, `Loading`, `SuccessAnimation` and
`FailureAnimation`. The state's label field is called `currentLabel`, because
`label` is a Dafny keyword.

Assumptions about code that is not part of this model:
- `KbsPin` is a wrapper around its string form. Two PINs are compared by that
  string, as `toString().equals(...)` does. `KbsPin.EMPTY` is the PIN whose
  string is empty.
- `KbsPin.from` is not part of this model. It is a parameter
  `parse: string -> KbsPin`. Every property holds whatever the parser does,
  except the two scenario lemmas (`MatchingSessionScenario`,
  `MismatchingSessionScenario`), which fix the parser on their one input string.
- `KbsKeyboardType` is taken to have exactly two values, NUMERIC and
  ALPHA_NUMERIC. `getOther` is taken to swap them.

Notes on the code's behaviour:
- The code compares the stored entry's string form with the PIN to confirm's
  string form. It does not parse again at confirm time.
- The result callback has no guard against a stale or late answer. A result
  always overwrites the save animation (`HandleResultLastWins`).

## Model

| member | source | states |
|---|---|---|
| ConfirmKbsPin.Init | app/src/main/java/org/thoughtcrime/securesms/lock/v2/ConfirmKbsPinViewModel.java:18-33 | A new screen has the empty entry, no save animation, the "re-enter PIN" label, the keyboard passed to the constructor, and the given PIN to confirm. |
| ConfirmKbsPin.Confirm | app/src/main/java/org/thoughtcrime/securesms/lock/v2/ConfirmKbsPinViewModel.java:43-56 | The entry is always empty afterwards. A request is made exactly when the entry's string matched the PIN to confirm before clearing. On a match the label becomes "creating PIN", the animation becomes LOADING, and the one request carries the PIN to confirm and the current keyboard. On a mismatch the label becomes "PIN does not match" and the animation is unchanged. The keyboard and the PIN to confirm never change. |
| ConfirmKbsPin.OnLoadingAnimationComplete | app/src/main/java/org/thoughtcrime/securesms/lock/v2/ConfirmKbsPinViewModel.java:58-60 | The label becomes EMPTY. Every other field is unchanged, and the save animation is not reset. |
| ConfirmKbsPin.SetUserEntry | app/src/main/java/org/thoughtcrime/securesms/lock/v2/ConfirmKbsPinViewModel.java:72-75 | The entry becomes the parse of the text. Keyboard, animation, label and PIN to confirm are unchanged. |
| ConfirmKbsPin.ToggleAlphaNumeric | app/src/main/java/org/thoughtcrime/securesms/lock/v2/ConfirmKbsPinViewModel.java:77-80 | The keyboard becomes its other value, which differs from the old one. Every other field is unchanged. |
| ConfirmKbsPin.HandleResult | app/src/main/java/org/thoughtcrime/securesms/lock/v2/ConfirmKbsPinViewModel.java:82-93 | SUCCESS shows the success animation and FAILURE shows the failure animation. Either way the animation is neither NONE nor LOADING afterwards, and every other field is unchanged. |
| ConfirmKbsPin.SetUserEntryIdempotent | app/src/main/java/org/thoughtcrime/securesms/lock/v2/ConfirmKbsPinViewModel.java:73-75 | Setting the same text twice gives the same state as setting it once. |
| ConfirmKbsPin.SetUserEntryOverwrites | app/src/main/java/org/thoughtcrime/securesms/lock/v2/ConfirmKbsPinViewModel.java:73-75 | Only the last text entered matters: entering a and then b equals entering b. |
| ConfirmKbsPin.ToggleTwiceRestores | app/src/main/java/org/thoughtcrime/securesms/lock/v2/ConfirmKbsPinViewModel.java:77-80 | Toggling the keyboard twice restores the whole original state. |
| KbsTypes.KeyboardType.Other | app/src/main/java/org/thoughtcrime/securesms/lock/v2/ConfirmKbsPinViewModel.java:79 | Under the two-value assumption, the other keyboard type always differs from the current one. |
| KbsTypes.OtherIsInvolution | app/src/main/java/org/thoughtcrime/securesms/lock/v2/ConfirmKbsPinViewModel.java:79 | Under the two-value assumption, the other of the other keyboard type is the original. |
| ConfirmKbsPin.AnimationCompleteIdempotent | app/src/main/java/org/thoughtcrime/securesms/lock/v2/ConfirmKbsPinViewModel.java:58-60 | A repeated animation-complete event changes nothing more. |
| ConfirmKbsPin.HandleResultLastWins | app/src/main/java/org/thoughtcrime/securesms/lock/v2/ConfirmKbsPinViewModel.java:82-93 | With two results, only the second shows. The callback has no guard against stale answers. |
| ConfirmKbsPin.ResultAndAnimationCommute | app/src/main/java/org/thoughtcrime/securesms/lock/v2/ConfirmKbsPinViewModel.java:58-89 | The result callback and the animation-complete event commute, because they write different fields. |
| ConfirmKbsPin.RepeatedConfirmReusesNoEntry | app/src/main/java/org/thoughtcrime/securesms/lock/v2/ConfirmKbsPinViewModel.java:44-55 | Because confirm clears the entry, a second confirm with no typing in between makes a request exactly when the PIN to confirm is empty. Otherwise it reports a mismatch. |
| ConfirmSession.Step | app/src/main/java/org/thoughtcrime/securesms/lock/v2/ConfirmKbsPinViewModel.java:44-93 | No event changes the PIN to confirm. An event makes a request exactly when it is a confirm whose entry matches, and that request carries the PIN to confirm and the keyboard. An event that starts the loading animation made a request. |
| ConfirmSession.Run | app/src/main/java/org/thoughtcrime/securesms/lock/v2/ConfirmKbsPinViewModel.java:23-93 | After any sequence of events the PIN to confirm is unchanged. Every request made carries it, and there are no more requests than events. |
| ConfirmSession.NoConfirmNoRequest | app/src/main/java/org/thoughtcrime/securesms/lock/v2/ConfirmKbsPinViewModel.java:44-93 | A sequence of events with no confirm in it makes no set-PIN request; only confirm calls the repository. |
| ConfirmSession.InitConsistent | app/src/main/java/org/thoughtcrime/securesms/lock/v2/ConfirmKbsPinViewModel.java:18-21 | A fresh screen shows no save animation and the "re-enter PIN" label. For every count n, the fresh screen is consistent with n requests made exactly when n is 0. |
| ConfirmSession.RunKeepsConsistent | app/src/main/java/org/thoughtcrime/securesms/lock/v2/ConfirmKbsPinViewModel.java:44-93 | Every event sequence whose results answer waiting requests keeps two links. The save animation is NONE exactly when no request has been made. The label reads "creating PIN" only after a request. |
| ConfirmSession.SessionInvariant | app/src/main/java/org/thoughtcrime/securesms/lock/v2/ConfirmKbsPinViewModel.java:18-93 | Every such session from a fresh screen ends with the save animation left NONE exactly when a request was made. The label reads "creating PIN" only if a request was made, and every request carries the PIN to confirm. |
| ConfirmSession.LoadingOnlyByMatchingConfirm | app/src/main/java/org/thoughtcrime/securesms/lock/v2/ConfirmKbsPinViewModel.java:48-55 | From a state that is not loading, an event starts the loading animation exactly when it is a confirm whose entry matches. |
| ConfirmSession.ConfirmClearsEntry | app/src/main/java/org/thoughtcrime/securesms/lock/v2/ConfirmKbsPinViewModel.java:45-46 | After a confirm, the entry stays empty until the user types again: a sequence with a confirm followed only by events that type nothing ends with the empty entry, whatever came before. |
| ConfirmSession.ClearedEntryStaysEmpty | app/src/main/java/org/thoughtcrime/securesms/lock/v2/ConfirmKbsPinViewModel.java:46-93 | From an empty entry, events that type nothing keep the entry empty; only setting the entry changes it. |
| ConfirmSession.MatchingSessionScenario | app/src/main/java/org/thoughtcrime/securesms/lock/v2/ConfirmKbsPinViewModel.java:44-89 | Entering "1234" against "1234", confirming, a SUCCESS result and the end of the animation gives one request ("1234", keyboard). The success animation remains, the label is EMPTY, and the entry is empty. |
| ConfirmSession.MismatchingSessionScenario | app/src/main/java/org/thoughtcrime/securesms/lock/v2/ConfirmKbsPinViewModel.java:44-55 | Entering "4321" against "1234" and confirming makes no request. The label is "PIN does not match", the entry is empty, and the animation is still NONE. |

## Left out

- LiveData observation and `Transformations.distinctUntilChanged` (lines 35-41, 62-70). These only notify the UI framework; the model's state is the value each field holds.
- The `Factory` and its `ViewModelProvider` wiring (lines 109-129). This is framework construction; `Init` models what the constructor does.
- The repository's `setPin` (line 52). `ConfirmKbsPinRepository` is not part of this model; the call is the returned `Request`, and its answer is the `RepositoryResult` event.
- `KbsPin.from` and `KbsPin` itself are not part of this model. The parser is a function parameter, and a PIN is its string form.
- `KbsKeyboardType` is not part of this model; it is assumed to be two-valued, with `getOther` swapping the values.
- The `default` branch that throws `IllegalStateException` (line 91). The outcome type has exactly two values, so the branch cannot be reached.
- `Preconditions.checkNotNull` on the keyboard (line 52). A keyboard value in the model is never null.
- `@MainThread` and the asynchronous delivery of the callback. Events are handled one at a time, and the callback is an ordinary event. The source has no cancellation and no stale-callback guard, so neither does the model.
