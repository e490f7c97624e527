/**
  The Search Ads attribution reporter as a state machine over the values it
  keeps: the two persisted flags, whether the instance is kept alive, the
  request in flight, the retry that is scheduled, how many requests were
  issued and how many analytics events were tracked.
 */
module AttributionMachine {
  import opened Sanitizing

  datatype Option<T> = None | Some(value: T)

  /** The sub-dictionary of the attribution details that is reported. */
  const ApiVersion: string := "Version3.1"

  /** The raw value of the iAd client's "limit ad tracking" error code. */
  const LimitAdTrackingCode: int := 1

  /** Seconds to wait before asking again after any other error. */
  const RetryDelay: nat := 5

  /** A top-level entry of the attribution details: a dictionary, or some
      other object that does not cast to one. */
  datatype Entry = Dict(fields: map<string, Value>) | Leaf(value: Value)

  /** The dictionary under the API version key, if the details have one. */
  function VersionFields(details: Option<map<string, Entry>>): Option<map<string, Value>>
  {
    if details.Some? && ApiVersion in details.value then
      match details.value[ApiVersion]
      case Dict(fields) => Some(fields)
      case Leaf(_) => None
    else None
  }

  datatype State = State(
    trackingLimited: bool,        // persisted: the user limited ad tracking
    detailsSent: bool,            // persisted: the details were reported
    alive: bool,                  // the static life token holds the instance
    awaitingReply: bool,          // an attribution request is in flight
    scheduledRetry: Option<nat>,  // the delay of the retry that is scheduled
    requests: nat,                // attribution requests issued so far
    tracked: nat                  // analytics events tracked so far
  )

  /** The state a new instance starts in, given the persisted flags. */
  function Initial(trackingLimited: bool, detailsSent: bool): State
  {
    State(trackingLimited, detailsSent, true, false, None, 0, 0)
  }

  /** What can happen to the reporter. */
  datatype Input =
    | Start(isSimulator: bool)                           // requestDetails is called
    | Details(details: Option<map<string, Entry>>)       // the request completes with details
    | Failure(code: int)                                 // the request completes with an error
    | RetryFires(isSimulator: bool)                      // the scheduled retry runs requestDetails

  /** An input that can occur in this state: a request only while the
      instance holds the life token and nothing is in flight or pending, a
      reply only to a request, the timer only once scheduled. */
  predicate Enabled(s: State, input: Input)
  {
    match input
    case Start(_) => s.alive && !s.awaitingReply && s.scheduledRetry.None?
    case Details(_) => s.awaitingReply
    case Failure(_) => s.awaitingReply
    case RetryFires(_) => s.scheduledRetry.Some?
  }

  /** The guard of requestDetails: no request from a simulator, once tracking
      is limited, or once the details were sent. */
  predicate MayRequest(s: State, isSimulator: bool)
  {
    !isSimulator && !s.trackingLimited && !s.detailsSent
  }

  /** requestDetails: issue one request, or release the instance. */
  function AfterRequestDetails(s: State, isSimulator: bool): State
  {
    if MayRequest(s, isSimulator) then s.(awaitingReply := true, requests := s.requests + 1)
    else s.(alive := false)
  }

  function Step(s: State, input: Input): State
    requires Enabled(s, input)
  {
    match input
    case Start(isSimulator) => AfterRequestDetails(s, isSimulator)
    case RetryFires(isSimulator) => AfterRequestDetails(s.(scheduledRetry := None), isSimulator)
    case Details(details) =>
      var done := s.(awaitingReply := false, alive := false);
      if VersionFields(details).Some? then done.(tracked := s.tracked + 1, detailsSent := true) else done
    case Failure(code) =>
      if code == LimitAdTrackingCode then s.(awaitingReply := false, trackingLimited := true, alive := false)
      else s.(awaitingReply := false, scheduledRetry := Some(RetryDelay))
  }

  /** Every input of the sequence is enabled when it arrives. */
  predicate Admissible(s: State, inputs: seq<Input>)
    decreases |inputs|
  {
    inputs == [] || (Enabled(s, inputs[0]) && Admissible(Step(s, inputs[0]), inputs[1..]))
  }

  function Run(s: State, inputs: seq<Input>): State
    requires Admissible(s, inputs)
    decreases |inputs|
  {
    if inputs == [] then s else Run(Step(s, inputs[0]), inputs[1..])
  }

  /** What every reachable state satisfies: never a request and a retry at
      once, nothing in flight or pending once the life token is dropped, no
      request once a flag is set, and at most one tracked event, which comes
      with the details being marked as sent. */
  predicate Inv(s: State)
  {
    && !(s.awaitingReply && s.scheduledRetry.Some?)
    && (!s.alive ==> !s.awaitingReply && s.scheduledRetry.None?)
    && (s.trackingLimited ==> !s.awaitingReply)
    && (s.detailsSent ==> !s.awaitingReply)
    && s.tracked <= 1
    && (s.tracked == 1 ==> s.detailsSent)
  }

  lemma InitialInv(trackingLimited: bool, detailsSent: bool)
    ensures Inv(Initial(trackingLimited, detailsSent))
  {
  }

  lemma StepInv(s: State, input: Input)
    requires Inv(s) && Enabled(s, input)
    ensures Inv(Step(s, input))
  {
  }

  lemma {:induction false} RunInv(s: State, inputs: seq<Input>)
    requires Inv(s) && Admissible(s, inputs)
    ensures Inv(Run(s, inputs))
    decreases |inputs|
  {
    if inputs != [] {
      StepInv(s, inputs[0]);
      RunInv(Step(s, inputs[0]), inputs[1..]);
    }
  }

  /** Neither persisted flag is ever set back to false. */
  lemma {:induction false} FlagsMonotone(s: State, inputs: seq<Input>)
    requires Admissible(s, inputs)
    ensures s.trackingLimited ==> Run(s, inputs).trackingLimited
    ensures s.detailsSent ==> Run(s, inputs).detailsSent
    ensures s.requests <= Run(s, inputs).requests && s.tracked <= Run(s, inputs).tracked
    decreases |inputs|
  {
    if inputs != [] {
      FlagsMonotone(Step(s, inputs[0]), inputs[1..]);
    }
  }

  /** Whatever happens after a launch, at most one event is tracked, and only
      if the details had not been sent by an earlier launch. */
  lemma AtMostOneReport(trackingLimited: bool, detailsSent: bool, inputs: seq<Input>)
    requires Admissible(Initial(trackingLimited, detailsSent), inputs)
    ensures Run(Initial(trackingLimited, detailsSent), inputs).tracked <= 1
    ensures detailsSent ==> Run(Initial(trackingLimited, detailsSent), inputs).tracked == 0
  {
    InitialInv(trackingLimited, detailsSent);
    RunInv(Initial(trackingLimited, detailsSent), inputs);
    if detailsSent {
      NothingOnceFlagged(Initial(trackingLimited, detailsSent), inputs);
    }
  }

  /** Once either flag is set (and no request is in flight, as the invariant
      guarantees), no request is ever issued and no event tracked again. */
  lemma {:induction false} NothingOnceFlagged(s: State, inputs: seq<Input>)
    requires Inv(s) && (s.trackingLimited || s.detailsSent)
    requires Admissible(s, inputs)
    ensures Run(s, inputs).requests == s.requests
    ensures Run(s, inputs).tracked == s.tracked
    ensures !Run(s, inputs).awaitingReply
    decreases |inputs|
  {
    if inputs != [] {
      StepInv(s, inputs[0]);
      NothingOnceFlagged(Step(s, inputs[0]), inputs[1..]);
    }
  }

  lemma {:induction false} RunAppend(s: State, a: seq<Input>, b: seq<Input>)
    requires Admissible(s, a) && Admissible(Run(s, a), b)
    ensures Admissible(s, a + b)
    ensures Run(s, a + b) == Run(Run(s, a), b)
    decreases |a|
  {
    if a == [] {
      assert a + b == b;
    } else {
      assert (a + b)[0] == a[0];
      assert (a + b)[1..] == a[1..] + b;
      RunAppend(Step(s, a[0]), a[1..], b);
    }
  }

  /** Consecutive failures, each followed by the retry firing. */
  function Retries(codes: seq<int>): seq<Input>
  {
    if codes == [] then [] else [Failure(codes[0]), RetryFires(false)] + Retries(codes[1..])
  }

  /** One error other than "limit ad tracking", then its retry firing: the
      guard lets the request through again. */
  lemma RetryRound(s: State, code: int)
    requires s.awaitingReply && s.scheduledRetry.None? && MayRequest(s, false)
    requires code != LimitAdTrackingCode
    ensures Admissible(s, [Failure(code), RetryFires(false)])
    ensures Run(s, [Failure(code), RetryFires(false)]) == s.(requests := s.requests + 1)
  {
    assert [Failure(code), RetryFires(false)][1..] == [RetryFires(false)];
    assert [RetryFires(false)][1..] == [];
  }

  /** A device that keeps failing with errors other than "limit ad tracking"
      asks again after each one, and stays alive while doing so. */
  lemma {:induction false} RetriesKeepAsking(s: State, codes: seq<int>)
    requires s.awaitingReply && s.scheduledRetry.None? && MayRequest(s, false)
    requires forall i :: 0 <= i < |codes| ==> codes[i] != LimitAdTrackingCode
    ensures Admissible(s, Retries(codes))
    ensures Run(s, Retries(codes)) == s.(requests := s.requests + |codes|)
    decreases |codes|
  {
    if codes == [] {
      assert Retries(codes) == [];
    } else {
      assert codes[0] != LimitAdTrackingCode;
      RetryRound(s, codes[0]);
      var s2 := s.(requests := s.requests + 1);
      RetriesKeepAsking(s2, codes[1..]);
      RunAppend(s, [Failure(codes[0]), RetryFires(false)], Retries(codes[1..]));
    }
  }

  /** On a real device where nothing was sent yet, any number of transient
      errors followed by details holding the API version dictionary ends with
      exactly one tracked event, the details marked as sent and the instance
      released, after one request per attempt. */
  lemma RetriesThenReport(codes: seq<int>, details: map<string, Entry>)
    requires forall i :: 0 <= i < |codes| ==> codes[i] != LimitAdTrackingCode
    requires ApiVersion in details && details[ApiVersion].Dict?
    ensures Admissible(Initial(false, false), [Start(false)] + Retries(codes) + [Details(Some(details))])
    ensures var t := Run(Initial(false, false), [Start(false)] + Retries(codes) + [Details(Some(details))]);
      t.tracked == 1 && t.detailsSent && !t.trackingLimited && !t.alive && t.requests == |codes| + 1
  {
    var s0 := Initial(false, false);
    var s1 := Step(s0, Start(false));
    assert Admissible(s0, [Start(false)]) && Run(s0, [Start(false)]) == s1;
    RetriesKeepAsking(s1, codes);
    RunAppend(s0, [Start(false)], Retries(codes));
    var s2 := Run(s0, [Start(false)] + Retries(codes));
    assert Admissible(s2, [Details(Some(details))]);
    RunAppend(s0, [Start(false)] + Retries(codes), [Details(Some(details))]);
  }

  /** A reply that carries a `"Version3.1"` dictionary is tracked once and
      marks the details as sent; a reply without one (no details, no such
      key, or an entry that is not a dictionary) tracks nothing and leaves the
      details unsent. Either way the instance is released. */
  lemma DetailsOutcome(s: State, details: Option<map<string, Entry>>)
    requires Inv(s) && s.awaitingReply
    ensures var t := Step(s, Details(details));
      var hasVersion := details.Some? && ApiVersion in details.value && details.value[ApiVersion].Dict?;
      && !t.alive && !t.awaitingReply && t.scheduledRetry.None?
      && t.trackingLimited == s.trackingLimited && t.requests == s.requests
      && (hasVersion ==> t.tracked == s.tracked + 1 && t.detailsSent)
      && (!hasVersion ==> t.tracked == s.tracked && !t.detailsSent)
  {
  }

  /** Once the life token is dropped, nothing of the reporter can run any
      more: no input is enabled. */
  lemma ReleasedIsFinal(s: State, input: Input)
    requires Inv(s) && !s.alive
    ensures !Enabled(s, input)
  {
  }

  /** An error meaning the user limited ad tracking is final: it sets the
      flag, schedules nothing and releases the instance; every other error
      keeps the flags and the instance and schedules a retry after 5 seconds. */
  lemma FailureOutcome(s: State, code: int)
    requires Inv(s) && s.awaitingReply
    ensures var t := Step(s, Failure(code));
      && !t.awaitingReply && t.detailsSent == s.detailsSent && t.tracked == s.tracked
      && (code == LimitAdTrackingCode <==> t.scheduledRetry.None?)
      && (code == LimitAdTrackingCode ==> t.trackingLimited && !t.alive)
      && (code != LimitAdTrackingCode ==>
            t.trackingLimited == s.trackingLimited && t.alive == s.alive && t.scheduledRetry == Some(RetryDelay))
  {
  }
}
