/**
  The reporter object itself: one instance per launch, kept alive by a static
  token until its work is done, asking the ad client for attribution details
  and reporting them once to analytics.
 */
module Reporter {
  import opened Sanitizing
  import opened AttributionMachine

  class SearchAdsAttribution {
    /** The two flags kept in the persistent store. */
    var isTrackingLimited: bool
    var isAttributionDetailsSent: bool
    /** The static life token refers to this instance. */
    var alive: bool
    /** A request to the ad client has been issued and not yet answered. */
    var awaitingReply: bool
    /** The delay of the retry that is scheduled on the main queue, if any. */
    var scheduledRetry: Option<nat>
    /** Requests issued to the ad client. */
    var requests: nat
    /** The properties of every analytics event tracked, in order. */
    var events: seq<map<string, string>>

    /** The state machine's view of this instance. */
    ghost function Model(): State
      reads this
    {
      State(isTrackingLimited, isAttributionDetailsSent, alive, awaitingReply, scheduledRetry, requests, |events|)
    }

    ghost predicate Valid()
      reads this
    {
      Inv(Model())
    }

    /** A new instance reads the persisted flags and takes the life token. */
    constructor (storedTrackingLimited: bool, storedDetailsSent: bool)
      ensures Valid()
      ensures Model() == Initial(storedTrackingLimited, storedDetailsSent) && events == []
    {
      isTrackingLimited := storedTrackingLimited;
      isAttributionDetailsSent := storedDetailsSent;
      alive := true;
      awaitingReply := false;
      scheduledRetry := None;
      requests := 0;
      events := [];
    }

    /** Asks for the details unless running on a simulator, tracking is
        limited or the details were already sent; in those cases the instance
        is released at once. */
    method RequestDetails(isSimulator: bool)
      requires Valid() && alive && !awaitingReply && scheduledRetry.None?
      modifies this
      ensures Valid() && Model() == Step(old(Model()), Start(isSimulator))
      ensures isTrackingLimited == old(isTrackingLimited) && isAttributionDetailsSent == old(isAttributionDetailsSent)
      ensures events == old(events)
      ensures isSimulator || old(isTrackingLimited) || old(isAttributionDetailsSent) ==>
                requests == old(requests) && !awaitingReply && !alive
      ensures !isSimulator && !old(isTrackingLimited) && !old(isAttributionDetailsSent) ==>
                requests == old(requests) + 1 && awaitingReply && alive == old(alive)
    {
      if isSimulator || isTrackingLimited || isAttributionDetailsSent {
        Finish();
        return;
      }
      RequestAttributionDetails();
    }

    /** Issues one request to the ad client; its answer arrives later through
        CompleteRequest. */
    method RequestAttributionDetails()
      modifies this
      ensures Model() == old(Model()).(awaitingReply := true, requests := old(requests) + 1)
      ensures events == old(events)
    {
      awaitingReply := true;
      requests := requests + 1;
    }

    /** The completion handler of the request: an error goes to
        DidReceiveError, anything else to DidReceiveAttributionDetails. */
    method CompleteRequest(details: Option<map<string, Entry>>, error: Option<int>)
      requires Valid() && awaitingReply
      modifies this
      ensures Valid()
      ensures error.Some? ==> Model() == Step(old(Model()), Failure(error.value)) && events == old(events)
      ensures error.None? ==> Model() == Step(old(Model()), Details(details))
      ensures error.None? && VersionFields(details).Some? ==>
                && |events| == |old(events)| + 1 && events[..|old(events)|] == old(events)
                && IsSanitizationOf(VersionFields(details).value, events[|old(events)|])
      ensures error.None? && VersionFields(details).None? ==> events == old(events)
    {
      if error.Some? {
        DidReceiveError(error.value);
      } else {
        DidReceiveAttributionDetails(details);
      }
    }

    /** Reports the dictionary under the API version key, sanitized, and
        marks the details as sent; without such a dictionary it reports
        nothing. Either way the instance is released. */
    method DidReceiveAttributionDetails(details: Option<map<string, Entry>>)
      requires Valid() && awaitingReply
      modifies this
      ensures Valid() && Model() == Step(old(Model()), Details(details))
      ensures !alive && !awaitingReply && scheduledRetry == old(scheduledRetry)
      ensures isTrackingLimited == old(isTrackingLimited) && requests == old(requests)
      ensures VersionFields(details).Some? ==>
                && isAttributionDetailsSent
                && |events| == |old(events)| + 1 && events[..|old(events)|] == old(events)
                && IsSanitizationOf(VersionFields(details).value, events[|old(events)|])
      ensures VersionFields(details).None? ==> events == old(events) && !isAttributionDetailsSent
    {
      awaitingReply := false;
      var fields := VersionFields(details);
      if fields.Some? {
        var parameters := Sanitize(fields.value);
        events := events + [parameters];
        isAttributionDetailsSent := true;
      }
      Finish();
    }

    /** "Limit ad tracking" is recorded and ends the work; any other error
        is taken as a connectivity problem and retried after 5 seconds. */
    method DidReceiveError(code: int)
      requires Valid() && awaitingReply
      modifies this
      ensures Valid() && Model() == Step(old(Model()), Failure(code))
      ensures events == old(events) && isAttributionDetailsSent == old(isAttributionDetailsSent)
      ensures !awaitingReply && requests == old(requests)
      ensures code == LimitAdTrackingCode ==> isTrackingLimited && !alive && scheduledRetry.None?
      ensures code != LimitAdTrackingCode ==>
                isTrackingLimited == old(isTrackingLimited) && alive == old(alive) && scheduledRetry == Some(RetryDelay)
    {
      awaitingReply := false;
      if code != LimitAdTrackingCode {
        TryAgain(RetryDelay);
        return;
      }
      isTrackingLimited := true;
      Finish();
    }

    /** Schedules requestDetails to run again after the delay. */
    method TryAgain(delay: nat)
      modifies this
      ensures Model() == old(Model()).(scheduledRetry := Some(delay))
      ensures events == old(events)
    {
      scheduledRetry := Some(delay);
    }

    /** The scheduled retry runs: the request goes through the same guard. */
    method RetryFired(isSimulator: bool)
      requires Valid() && scheduledRetry.Some?
      modifies this
      ensures Valid() && Model() == Step(old(Model()), RetryFires(isSimulator))
      ensures Model() == Step(old(Model()).(scheduledRetry := None), Start(isSimulator))
      ensures events == old(events)
    {
      scheduledRetry := None;
      RequestDetails(isSimulator);
    }

    /** Drops the life token, so that the instance is freed. */
    method Finish()
      modifies this
      ensures Model() == old(Model()).(alive := false)
      ensures events == old(events)
    {
      alive := false;
    }
  }
}
