# Crave: watch craving intake, watch-to-phone bridge, text-input rules

This project models the only parts of the Crave phone and watch apps that
have behaviour worth stating.

- **Craving-log intake** on the watch. The view model checks that the
  description is non-empty and builds a `"logCraving"` key/value message.
  It hands the message to the connectivity service, resets its fields and
  raises a confirmation flag. An empty description sets a dismissible error
  instead.
- **Watch-to-phone bridge.** The connectivity service forwards a message only
  when a platform session exists and reports the phone reachable. Otherwise
  it drops the message: there is no queue and no retry. A reachability
  callback copies the session's flag into published state.
- **Text-editor rules** on the phone. Every edit is cut to the first
  `characterLimit` characters when a positive limit is exceeded. The editor
  height is `(count/35 + 1) * 20` clamped to [120, 300].

Files and modules:

- `wrappers.dfy` (`Wrappers`): `Option`.
- `watch_craving_entity.dfy` (`Domain`): the `WatchCravingEntity` record.
- `wire.dfy` (`Wire`): the message map, its construction, and a decoder for
  the receiving side, with round-trip lemmas in both directions.
- `watch_connectivity_service.dfy` (`Connectivity`): the platform session as
  a class with an `isReachable` flag, and the service as a class. Two ghost
  logs record every message handed to `sendMessageToPhone` (`requests`) and
  every message passed on to the session (`transmitted`).
- `craving_log_view_model.dfy` (`CravingLog`): the view model as a class whose
  methods are tied to value-level step functions. It also defines runs of UI
  events, with an inductive invariant over those runs.
- `crave_text_editor.dfy` (`TextEditor`): the truncation and height rules as
  functions, and the editor's bound text and `@State` height as a class.
- `scenarios.dfy` (`Scenarios`): concrete runs built only from the contracts.

Modelling choices:

- Timestamps are opaque integers (`Domain.Seconds`), passed in as parameters.
  The source reads a `Date` / `Date()` and sends `timeIntervalSince1970`, a
  `Double`.
- Heights are `int`; the source's `CGFloat` values are always whole numbers.
- Text is `seq<char>`; its length stands in for Swift's `String.count`.
- Platform support (`WCSession.isSupported()`) and the default session are
  constructor parameters of the service.

Two behaviours of the code worth knowing:

- Validation tests plain emptiness, not trimmed emptiness, so a
  whitespace-only description is accepted and sent
  (`CravingLog.WhitespaceDescriptionIsSent`).
- `logCraving` raises the confirmation and clears the fields even when the
  service drops the message (`Scenarios.UnreachableScenario`).

## Model

| member | source | states |
|---|---|---|
| `Wire.LogCravingMessage` | CraveWatch/Core/Presentation/ViewModels/CravingLogViewModel.swift:33-38 | the message has exactly the keys action, description, intensity and timestamp, and action is "logCraving" |
| `Wire.DecodeCraving` | CraveWatch/Core/Services/WatchConnectivityService.swift:42-47 | a message decodes to a craving only if its action is "logCraving" |
| `Wire.DecodeLogCravingMessage` | CraveWatch/Core/Services/WatchConnectivityService.swift:43-46 | decoding a built message gives back its description, intensity and timestamp |
| `Wire.LogCravingMessageOfDecoded` | CraveWatch/Core/Services/WatchConnectivityService.swift:42-47 | a decodable message with exactly the four keys equals the message built from its decoded fields |
| `Connectivity.EncodeCraving` | CraveWatch/Core/Services/WatchConnectivityService.swift:42-47 | the encoded record has exactly the four keys and action "logCraving", and it decodes back to the same record |
| `Connectivity.WatchConnectivityService.constructor` | CraveWatch/Core/Services/WatchConnectivityService.swift:15-25 | phoneReachable starts false; a session exists only when the platform supports one; nothing has been sent; the invariant (no session means not reachable) holds |
| `Connectivity.WatchConnectivityService.SendMessageToPhone` | CraveWatch/Core/Services/WatchConnectivityService.swift:30-38 | with no session, or a session that is not reachable, nothing is transmitted; otherwise exactly the given message is; each message is transmitted at most as often as it was requested |
| `Connectivity.WatchConnectivityService.SendCravingToPhone` | CraveWatch/Core/Services/WatchConnectivityService.swift:41-49 | the encoded record goes through the same reachability guard |
| `Connectivity.WatchConnectivityService.SessionReachabilityDidChange` | CraveWatch/Core/Services/WatchConnectivityService.swift:65-70 | called only for the service's own session (the delegate is registered on it alone), phoneReachable becomes that session's isReachable, so it agrees with the send guard; nothing is sent, queued or retried |
| `CravingLog.LogCravingStep` | CraveWatch/Core/Presentation/ViewModels/CravingLogViewModel.swift:25-47 | a message is handed off exactly when the description is non-empty; an empty one only sets the "Please enter a craving description." error; a non-empty one yields a message that decodes to the pre-call description, intensity and time, and resets the state to "", 5 and confirmation shown, with the error untouched |
| `CravingLog.DismissErrorStep` | CraveWatch/Core/Presentation/ViewModels/CravingLogViewModel.swift:49-51 | the error is cleared and the other fields are unchanged |
| `CravingLog.DismissErrorIdempotent` | CraveWatch/Core/Presentation/ViewModels/CravingLogViewModel.swift:49-51 | dismissing twice is the same as dismissing once |
| `CravingLog.WhitespaceDescriptionIsSent` | CraveWatch/Core/Presentation/ViewModels/CravingLogViewModel.swift:26 | a description of spaces only passes validation, is handed off and raises the confirmation |
| `CravingLog.CravingLogViewModel.constructor` | CraveWatch/Core/Presentation/ViewModels/CravingLogViewModel.swift:11-22 | the initial state is description "", intensity 5, no confirmation and no error |
| `CravingLog.CravingLogViewModel.LogCraving` | CraveWatch/Core/Presentation/ViewModels/CravingLogViewModel.swift:25-47 | on an empty description it sets the error and changes nothing else, sending nothing; otherwise it hands exactly one "logCraving" message with the pre-call description and intensity to the service, sets description "", intensity 5 and confirmation true, and leaves the error alone; the message reaches the session only when the session is reachable, exactly as `Run` transmits for a log tap whose reachability is the service's `CanDeliver()` |
| `CravingLog.CravingLogViewModel.DismissError` | CraveWatch/Core/Presentation/ViewModels/CravingLogViewModel.swift:49-51 | the error becomes nil and nothing else changes |
| `CravingLog.RunTransmitsOnlyDescribedCravings` | CraveWatch/Core/Presentation/ViewModels/CravingLogViewModel.swift:25-47 | in any run of UI edits, log taps and dismissals, every transmitted message is a four-key "logCraving" message with a non-empty description, and there are at most as many as log taps |
| `TextEditor.LimitText` | CravePhone/Presentation/Common/DesignSystem/Components/CraveTextEditor.swift:163-164 | the result is a prefix of the new value; with a positive limit it is within the limit and exactly the limit long when cut; with no positive limit, or within it, the value is unchanged |
| `TextEditor.LimitTextIdempotent` | CravePhone/Presentation/Common/DesignSystem/Components/CraveTextEditor.swift:163-164 | applying the limit to its own output changes nothing |
| `TextEditor.LimitTextKeepsLongestPrefix` | CravePhone/Presentation/Common/DesignSystem/Components/CraveTextEditor.swift:164 | every prefix of the new value within the limit is a prefix of the result |
| `TextEditor.EditorHeight` | CravePhone/Presentation/Common/DesignSystem/Components/CraveTextEditor.swift:141-142 | the height lies in [120, 300] and is a multiple of 20; it is 120 exactly for texts under 210 characters and 300 exactly from 490 on |
| `TextEditor.EditorHeightMonotone` | CravePhone/Presentation/Common/DesignSystem/Components/CraveTextEditor.swift:141-142 | the height never decreases as the text grows |
| `TextEditor.EditorHeightUnclamped` | CravePhone/Presentation/Common/DesignSystem/Components/CraveTextEditor.swift:141-142 | between the clamps the height is (count/35 + 1) * 20 with integer division |
| `TextEditor.EditorHeightUnderDefaultLimit` | CravePhone/Presentation/Common/DesignSystem/Components/CraveTextEditor.swift:42 | with the default limit of 300 characters, a limited text never gets an editor taller than 180 |
| `TextEditor.CraveTextEditor.constructor` | CravePhone/Presentation/Common/DesignSystem/Components/CraveTextEditor.swift:26-50 | the height starts at 120; the limit defaults to 300 |
| `TextEditor.CraveTextEditor.FrameHeight` | CravePhone/Presentation/Common/DesignSystem/Components/CraveTextEditor.swift:68 | the frame height max(editorHeight, 120) always equals editorHeight |
| `TextEditor.CraveTextEditor.CalculateEditorHeight` | CravePhone/Presentation/Common/DesignSystem/Components/CraveTextEditor.swift:140-148 | whether or not it reassigns, the height afterwards is the one computed from the current text, within [120, 300] |
| `TextEditor.CraveTextEditor.OnTextChange` | CravePhone/Presentation/Common/DesignSystem/Components/CraveTextEditor.swift:161-168 | run with the binding's current value, it leaves the limited value: cut to the limit only when a positive limit is exceeded; the height is then computed from the resulting text |
| `TextEditor.CraveTextEditor.EditText` | CravePhone/Presentation/Common/DesignSystem/Components/CraveTextEditor.swift:153-168 | a write of the same text changes neither text nor height (the handler runs only on a change); after a write that changes the text, the text is the limited new value, within a positive limit, and the height matches its length, including after the handler runs again on its own truncation |
| `Scenarios.EmptyDescriptionScenario` | CraveWatch/Core/Presentation/ViewModels/CravingLogViewModel.swift:26-29 | an empty description gives the error, no confirmation and no send |
| `Scenarios.CoffeeScenario` | CraveWatch/Core/Presentation/ViewModels/CravingLogViewModel.swift:33-46 | "Coffee" at intensity 3 with a reachable phone sends one message that decodes to "Coffee", 3, and then resets the fields |
| `Scenarios.UnreachableScenario` | CraveWatch/Core/Presentation/ViewModels/CravingLogViewModel.swift:41-46 | with an unreachable phone nothing is transmitted, yet the confirmation is shown |
| `Scenarios.StaleReachabilityScenario` | CraveWatch/Core/Services/WatchConnectivityService.swift:31 | the published flag can still say reachable while the session does not, and the send follows the session |
| `Scenarios.UnsupportedScenario` | CraveWatch/Core/Services/WatchConnectivityService.swift:20-24 | without platform support, sends transmit nothing and the published flag stays false; the service invariant (no session means not reachable), kept by every method, makes that hold in every later state |

## Left out

- Session activation (`activate()`, WatchConnectivityService.swift:23): a platform call, not modelled.
- The activation-complete callback (WatchConnectivityService.swift:53-63): it only logs.
- Delegate registration (WatchConnectivityService.swift:22) is not a separate step: it shows up as the precondition that the reachability callback comes from the service's own session.
- The transport's send-error handler (WatchConnectivityService.swift:35-37): it only prints. Delivery past the session is not modelled.
- Concurrency: the delegate callbacks' hop back to the main actor is treated as one sequential method call.
- `print` logging throughout.
- Floating-point timestamps and the wall clock: the timestamp is an opaque integer parameter.
- SwiftData persistence of `WatchCravingEntity`: only its three fields are kept.
- Swift's grapheme-cluster `String.count`: text is a sequence of characters.
- `onChangeBackport` is defined in View+Extensions.swift, which is not part of this model; it is taken to run the handler once per actual change of the text and not for the initial value.
- The SwiftUI view tree of `CraveTextEditor`: placeholder, mic button, haptics, focus, colours and animations. The `withAnimation` around the height assignment is just an assignment here.
- `CravePhone/PhoneApp/DI/DependencyContainer.swift`: dependency wiring with no behaviour to state.
- The phone side that receives the message is not part of this model. `Wire.DecodeCraving` is the reading the message format implies, not code from the repository.
