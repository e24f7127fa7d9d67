/** The watch-to-phone message bridge (CraveWatch/Core/Services/WatchConnectivityService.swift). */
module Connectivity {
  import opened Wrappers
  import opened Domain
  import opened Wire

  /** The platform session (`WCSession`). Only its reachability flag is
      modelled; the platform changes it whenever the transport does. */
  class Session {
    var isReachable: bool

    constructor (isReachable: bool)
      ensures this.isReachable == isReachable
    {
      this.isReachable := isReachable;
    }
  }

  /** The "logCraving" message for a stored craving record. */
  function EncodeCraving(craving: WatchCravingEntity): (m: Message)
    ensures m.Keys == LogCravingKeys
    ensures m[ActionKey] == Text(LogCravingAction)
    ensures DecodeCraving(m) == Some(craving)
  {
    DecodeLogCravingMessage(craving.text, craving.intensity, craving.timestamp);
    LogCravingMessage(craving.text, craving.intensity, craving.timestamp)
  }

  class WatchConnectivityService {
    /** Published reachability, refreshed only by the platform's callback. */
    var phoneReachable: bool
    /** Present only when the platform supports connectivity. */
    var session: Session?
    /** Every message handed to `sendMessageToPhone`, in call order. */
    ghost var requests: seq<Message>
    /** Every message passed on to the platform session, in call order. */
    ghost var transmitted: seq<Message>

    /** Nothing is transmitted that was not requested, and nothing more often
        than it was requested: there is no queue and no retry. Without a
        session no callback can arrive, so the phone is never reported reachable. */
    ghost predicate Valid()
      reads this
    {
      && multiset(transmitted) <= multiset(requests)
      && (session == null ==> !phoneReachable)
    }

    /** The guard of `sendMessageToPhone`: a session exists and the session
        itself, not the published flag, says the phone is reachable. */
    predicate CanDeliver()
      reads this, session
    {
      session != null && session.isReachable
    }

    /** `init`: the session is the platform default when supported, none
        otherwise, and this service becomes that session's delegate, so the
        platform's callbacks come only from it. Activation is a platform call
        and is not modelled. */
    constructor (isSupported: bool, defaultSession: Session)
      ensures Valid()
      ensures !phoneReachable
      ensures session == (if isSupported then defaultSession else null)
      ensures requests == [] && transmitted == []
    {
      phoneReachable := false;
      session := if isSupported then defaultSession else null;
      requests, transmitted := [], [];
    }

    /** Forwards the message unchanged when the session is reachable and drops
        it otherwise; either way the call itself is recorded once. */
    method SendMessageToPhone(message: Message)
      requires Valid()
      modifies this`requests, this`transmitted
      ensures Valid()
      ensures requests == old(requests) + [message]
      ensures transmitted == old(transmitted) + (if CanDeliver() then [message] else [])
    {
      requests := requests + [message];
      if session != null && session.isReachable {
        transmitted := transmitted + [message];
      }
    }

    /** Encodes the record and goes through the same guarded send. */
    method SendCravingToPhone(craving: WatchCravingEntity)
      requires Valid()
      modifies this`requests, this`transmitted
      ensures Valid()
      ensures requests == old(requests) + [EncodeCraving(craving)]
      ensures transmitted == old(transmitted) + (if CanDeliver() then [EncodeCraving(craving)] else [])
    {
      var msg := EncodeCraving(craving);
      SendMessageToPhone(msg);
    }

    /** The platform's reachability callback copies the session's flag into
        the published state; it sends, queues and retries nothing. The
        platform calls it only on the session this service is delegate of. */
    method SessionReachabilityDidChange(s: Session)
      requires Valid()
      requires s == session
      modifies this`phoneReachable
      ensures Valid()
      ensures phoneReachable == s.isReachable
      ensures phoneReachable == CanDeliver()
      ensures requests == old(requests) && transmitted == old(transmitted)
    {
      phoneReachable := s.isReachable;
    }
  }
}
