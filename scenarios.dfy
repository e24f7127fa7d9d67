/** Concrete runs of the watch-side intake and bridge, built from the
    contracts above alone. */
module Scenarios {
  import opened Wrappers
  import opened Domain
  import opened Wire
  import opened Connectivity
  import opened CravingLog

  /** An empty description raises the error and sends nothing. */
  method EmptyDescriptionScenario(now: Seconds) returns (error: Option<CravingError>, confirmed: bool)
    ensures error == Some(CravingError("Please enter a craving description."))
    ensures !confirmed
  {
    var session := new Session(true);
    var service := new WatchConnectivityService(true, session);
    var vm := new CravingLogViewModel(service);
    vm.LogCraving(now);
    assert service.requests == [] && service.transmitted == [];
    error, confirmed := vm.errorWrapper, vm.showConfirmation;
  }

  /** "Coffee" at intensity 3 with a reachable phone: one message goes out, and
      the fields are reset. */
  method CoffeeScenario(now: Seconds) returns (description: string, intensity: int, confirmed: bool)
    ensures description == "" && intensity == 5 && confirmed
  {
    var session := new Session(true);
    var service := new WatchConnectivityService(true, session);
    var vm := new CravingLogViewModel(service);
    vm.cravingDescription, vm.intensity := "Coffee", 3;
    vm.LogCraving(now);
    assert service.transmitted == [LogCravingMessage("Coffee", 3, now)];
    DecodeLogCravingMessage("Coffee", 3, now);
    assert DecodeCraving(service.transmitted[0]) == Some(WatchCravingEntity("Coffee", 3, now));
    description, intensity, confirmed := vm.cravingDescription, vm.intensity, vm.showConfirmation;
  }

  /** With the phone unreachable the message is dropped, yet the watch still
      shows the confirmation and clears its fields. */
  method UnreachableScenario(now: Seconds) returns (description: string, confirmed: bool)
    ensures description == "" && confirmed
  {
    var session := new Session(false);
    var service := new WatchConnectivityService(true, session);
    var vm := new CravingLogViewModel(service);
    vm.cravingDescription := "Chips";
    vm.LogCraving(now);
    assert service.requests == [LogCravingMessage("Chips", DefaultIntensity, now)];
    assert service.transmitted == [];
    description, confirmed := vm.cravingDescription, vm.showConfirmation;
  }

  /** The published flag can be stale: it still says reachable after the
      session went away, and the send follows the session, not the flag. */
  method StaleReachabilityScenario(craving: WatchCravingEntity) returns (published: bool)
    ensures published
  {
    var session := new Session(true);
    var service := new WatchConnectivityService(true, session);
    service.SessionReachabilityDidChange(session);
    session.isReachable := false;
    service.SendCravingToPhone(craving);
    assert service.transmitted == [];
    published := service.phoneReachable;
  }

  /** Without platform support there is no session: sends transmit nothing,
      no reachability callback can arrive, and the published flag stays false,
      as the service's invariant guarantees in every state. */
  method UnsupportedScenario(craving: WatchCravingEntity, message: Message) returns (published: bool)
    ensures !published
  {
    var session := new Session(true);
    var service := new WatchConnectivityService(false, session);
    service.SendCravingToPhone(craving);
    service.SendMessageToPhone(message);
    assert service.requests == [EncodeCraving(craving), message] && service.transmitted == [];
    assert service.session == null && service.Valid();
    published := service.phoneReachable;
  }
}
