/** The watch's craving-log intake (CraveWatch/Core/Presentation/ViewModels/CravingLogViewModel.swift). */
module CravingLog {
  import opened Wrappers
  import opened Domain
  import opened Wire
  import opened Connectivity

  const DefaultIntensity := 5
  const EmptyDescriptionMessage := "Please enter a craving description."

  datatype CravingError = CravingError(message: string)

  const EmptyDescriptionError := CravingError(EmptyDescriptionMessage)

  /** The four published fields of the view model, as one value. */
  datatype CravingLogState = CravingLogState(
    cravingDescription: string,
    intensity: int,
    showConfirmation: bool,
    errorWrapper: Option<CravingError>)

  const InitialState := CravingLogState("", DefaultIntensity, false, None)

  /** What one `logCraving` does: the next state, and the message it hands to
      the connectivity service, if any. */
  datatype Step = Step(state: CravingLogState, handedOff: Option<Message>)

  /** `logCraving` on values. Validation is plain emptiness: no trimming. */
  function LogCravingStep(s: CravingLogState, now: Seconds): (r: Step)
    ensures r.handedOff.None? <==> s.cravingDescription == []
    ensures s.cravingDescription == [] ==>
              r.state == s.(errorWrapper := Some(EmptyDescriptionError))
    ensures s.cravingDescription != [] ==>
              && DecodeCraving(r.handedOff.value)
                 == Some(WatchCravingEntity(s.cravingDescription, s.intensity, now))
              && r.handedOff.value.Keys == LogCravingKeys
              && r.state == CravingLogState("", DefaultIntensity, true, s.errorWrapper)
  {
    if s.cravingDescription == [] then
      Step(s.(errorWrapper := Some(EmptyDescriptionError)), None)
    else
      DecodeLogCravingMessage(s.cravingDescription, s.intensity, now);
      Step(CravingLogState("", DefaultIntensity, true, s.errorWrapper),
           Some(LogCravingMessage(s.cravingDescription, s.intensity, now)))
  }

  /** `dismissError` on values: clears the error and nothing else. */
  function DismissErrorStep(s: CravingLogState): (r: CravingLogState)
    ensures r.errorWrapper == None
    ensures r.cravingDescription == s.cravingDescription && r.intensity == s.intensity
            && r.showConfirmation == s.showConfirmation
  {
    s.(errorWrapper := None)
  }

  lemma DismissErrorIdempotent(s: CravingLogState)
    ensures DismissErrorStep(DismissErrorStep(s)) == DismissErrorStep(s)
  {
  }

  /** A description made of spaces only is accepted and sent. */
  lemma WhitespaceDescriptionIsSent(s: CravingLogState, now: Seconds)
    requires |s.cravingDescription| > 0
    requires forall i :: 0 <= i < |s.cravingDescription| ==> s.cravingDescription[i] == ' '
    ensures LogCravingStep(s, now).handedOff.Some?
    ensures LogCravingStep(s, now).state.showConfirmation
  {
  }

  class CravingLogViewModel {
    var cravingDescription: string
    var intensity: int
    var showConfirmation: bool
    var errorWrapper: Option<CravingError>
    const watchConnectivityService: WatchConnectivityService

    function State(): (s: CravingLogState)
      reads this
    {
      CravingLogState(cravingDescription, intensity, showConfirmation, errorWrapper)
    }

    constructor (watchConnectivityService: WatchConnectivityService)
      ensures State() == InitialState
      ensures this.watchConnectivityService == watchConnectivityService
    {
      cravingDescription := "";
      intensity := DefaultIntensity;
      showConfirmation := false;
      errorWrapper := None;
      this.watchConnectivityService := watchConnectivityService;
    }

    /** Validates the description; on success hands one "logCraving" message
        to the service, resets the fields and raises the confirmation, whether
        or not the service could deliver it. */
    method LogCraving(now: Seconds)
      requires watchConnectivityService.Valid()
      modifies this, watchConnectivityService`requests, watchConnectivityService`transmitted
      ensures watchConnectivityService.Valid()
      ensures State() == LogCravingStep(old(State()), now).state
      ensures watchConnectivityService.requests
              == old(watchConnectivityService.requests) + ToSeq(LogCravingStep(old(State()), now).handedOff)
      ensures watchConnectivityService.transmitted
              == old(watchConnectivityService.transmitted)
                 + (if watchConnectivityService.CanDeliver()
                    then ToSeq(LogCravingStep(old(State()), now).handedOff) else [])
      ensures old(cravingDescription) == [] ==>
                && errorWrapper == Some(EmptyDescriptionError)
                && cravingDescription == old(cravingDescription)
                && intensity == old(intensity)
                && showConfirmation == old(showConfirmation)
                && watchConnectivityService.transmitted == old(watchConnectivityService.transmitted)
      ensures old(cravingDescription) != [] ==>
                && cravingDescription == "" && intensity == DefaultIntensity && showConfirmation
                && errorWrapper == old(errorWrapper)
                && watchConnectivityService.transmitted
                   == old(watchConnectivityService.transmitted)
                      + (if watchConnectivityService.CanDeliver()
                         then [LogCravingMessage(old(cravingDescription), old(intensity), now)]
                         else [])
    {
      if cravingDescription == [] {
        errorWrapper := Some(EmptyDescriptionError);
        return;
      }
      var message := LogCravingMessage(cravingDescription, intensity, now);
      watchConnectivityService.SendMessageToPhone(message);
      cravingDescription := "";
      intensity := DefaultIntensity;
      showConfirmation := true;
    }

    method DismissError()
      modifies this`errorWrapper
      ensures State() == DismissErrorStep(old(State()))
      ensures errorWrapper == None
    {
      errorWrapper := None;
    }
  }

  /** What the watch's UI does to the view model: the view binds the
      description and intensity, and its buttons call `logCraving` and
      `dismissError`. `reachable` stands for the service's `CanDeliver()` at
      the moment of the tap: given it, `CravingLogViewModel.LogCraving`
      transmits exactly what `Run` does for that tap. */
  datatype UiEvent =
    | EditDescription(description: string)
    | EditIntensity(intensity: int)
    | TapLog(now: Seconds, reachable: bool)
    | TapDismiss

  /** The state after a run of UI events, and the messages that reached the
      platform session during it. */
  datatype Outcome = Outcome(state: CravingLogState, transmitted: seq<Message>)

  function Run(s: CravingLogState, events: seq<UiEvent>): (o: Outcome)
    decreases |events|
  {
    if events == [] then Outcome(s, [])
    else
      var (next, sent) :=
        match events[0]
        case EditDescription(d) => (s.(cravingDescription := d), [])
        case EditIntensity(i) => (s.(intensity := i), [])
        case TapLog(now, reachable) =>
          var step := LogCravingStep(s, now);
          (step.state, if reachable then ToSeq(step.handedOff) else [])
        case TapDismiss => (DismissErrorStep(s), []);
      var rest := Run(next, events[1..]);
      Outcome(rest.state, sent + rest.transmitted)
  }

  /** A message that the phone reads as a craving with a non-empty description. */
  ghost predicate IsDescribedCraving(m: Message)
  {
    DecodeCraving(m).Some? && DecodeCraving(m).value.text != []
  }

  /** In every run, whatever the UI does, each message that reaches the
      session is a well-formed "logCraving" message with a non-empty
      description, and there is at most one per log tap. */
  lemma {:induction false} RunTransmitsOnlyDescribedCravings(s: CravingLogState, events: seq<UiEvent>)
    ensures forall k :: 0 <= k < |Run(s, events).transmitted| ==>
              IsDescribedCraving(Run(s, events).transmitted[k])
              && Run(s, events).transmitted[k].Keys == LogCravingKeys
    ensures |Run(s, events).transmitted| <= LogTaps(events)
    decreases |events|
  {
    if events != [] {
      var next :=
        match events[0]
        case EditDescription(d) => s.(cravingDescription := d)
        case EditIntensity(i) => s.(intensity := i)
        case TapLog(now, _) => LogCravingStep(s, now).state
        case TapDismiss => DismissErrorStep(s);
      RunTransmitsOnlyDescribedCravings(next, events[1..]);
    }
  }

  /** The number of log taps in a run. */
  function LogTaps(events: seq<UiEvent>): (n: nat)
    decreases |events|
  {
    if events == [] then 0
    else (if events[0].TapLog? then 1 else 0) + LogTaps(events[1..])
  }
}
