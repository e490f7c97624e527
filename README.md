# Search Ads attribution reporter, modelled in Dafny

WordPress for iOS reports, once per installation, the Search Ads attribution
details that Apple's iAd client returns for the install. `SearchAdsAttribution`
is a one-shot object: a new instance holds itself alive through a static life
token, asks the ad client for the details unless it runs on a simulator,
tracking is limited or the details were already sent, and then either reports
the `"Version3.1"` dictionary to analytics (keys with `-` rewritten to `_`,
values turned into strings) and marks the details as sent, records that ad
tracking is limited, or retries after 5 seconds on any other error. Every
terminal outcome drops the life token.

The model has three modules:

- `Sanitizing` (`sanitize.dfy`): the values of the details, the key
  rewriting (`ReplaceDashes`, SearchAdsAttribution.swift:91), the value
  conversion (`Stringify`, :92, whose property `SanitizedUniqueKey` states), and `Sanitize`, a loop that fills a fresh dictionary visiting the
  input entries in an unspecified order, proved against the predicate
  `IsSanitizationOf`; lemmas give the shape of the result (no `-` in a key, no
  more entries than the input, unique keys keep their values) and its
  idempotence.
- `AttributionMachine` (`machine.dfy`): the reporter as a state machine over
  values (`State`, `Input`, `Step`, `Run`), with an invariant and lemmas about
  every run. `MayRequest` is the guard of `requestDetails` (:49-52),
  `AfterRequestDetails` its two outcomes (:48-59), `VersionFields` the
  extraction of the `"Version3.1"` dictionary (:77-79), and `Step` the whole
  of :48-116; their properties are stated by `StepInv`, `RunInv`,
  `DetailsOutcome`, `FailureOutcome` and the run lemmas below. The lemmas about
  every run say: the flags never go back to false, at most one event is ever
  tracked, nothing is requested once a flag is set, and transient errors
  followed by a good reply end in exactly one report.
- `Reporter` (`reporter.dfy`): the class `SearchAdsAttribution` with the
  source's fields and one method per source method. The public entry point
  (`RequestDetails`), the completion handler and the two handlers, and the
  retry firing tie their effect to `Step` and state the outcome outright,
  including the contents of the tracked event; the three small helpers
  (`RequestAttributionDetails`, `TryAgain`, `Finish`) state their new state
  directly as an update of the previous one.

The two persisted flags are plain fields whose stored values are given to the
constructor. The life token is the field `alive`. The request in flight, the
retry scheduled on the main queue, the number of requests and the analytics
event log are fields too. The device check is a parameter, an ad-client reply
or error is the input of the completion handler, and a timer firing is a call
of `RetryFired`.

## Model

| member | source | states |
|---|---|---|
| `Reporter.SearchAdsAttribution.constructor` | WordPress/Classes/Utility/iAds/SearchAdsAttribution.swift:43-46 | a new instance holds the life token, keeps the persisted flags, has nothing in flight, nothing scheduled and nothing tracked |
| `Reporter.SearchAdsAttribution.RequestDetails` | WordPress/Classes/Utility/iAds/SearchAdsAttribution.swift:48-59 | on a simulator, with tracking limited or with the details sent, no request is issued and the life token is dropped; otherwise exactly one request is issued and the token kept; neither flag changes and nothing is tracked |
| `Reporter.SearchAdsAttribution.RequestAttributionDetails` | WordPress/Classes/Utility/iAds/SearchAdsAttribution.swift:61-62 | one request is issued and awaits its answer; nothing else changes |
| `Reporter.SearchAdsAttribution.CompleteRequest` | WordPress/Classes/Utility/iAds/SearchAdsAttribution.swift:62-70 | an answer with an error takes the error step and tracks nothing; any other answer takes the details step, appending exactly one event holding a sanitization of the `"Version3.1"` dictionary when there is one and no event otherwise |
| `Reporter.SearchAdsAttribution.DidReceiveAttributionDetails` | WordPress/Classes/Utility/iAds/SearchAdsAttribution.swift:73-84 | with a `"Version3.1"` dictionary: exactly one event appended, holding a sanitization of that dictionary, and the details marked as sent; without one (no details, no such key, not a dictionary): no event and the details still not sent; the life token is dropped either way |
| `Reporter.SearchAdsAttribution.DidReceiveError` | WordPress/Classes/Utility/iAds/SearchAdsAttribution.swift:99-110 | the limit-ad-tracking code sets the tracking-limited flag, schedules nothing and drops the token; any other code schedules a retry after 5 seconds and keeps both flags and the token |
| `Reporter.SearchAdsAttribution.TryAgain` | WordPress/Classes/Utility/iAds/SearchAdsAttribution.swift:112-116 | a retry with the given delay is scheduled; nothing else changes |
| `Reporter.SearchAdsAttribution.RetryFired` | WordPress/Classes/Utility/iAds/SearchAdsAttribution.swift:113-115 | the fired retry is consumed and requestDetails runs again with its guard |
| `Reporter.SearchAdsAttribution.Finish` | WordPress/Classes/Utility/iAds/SearchAdsAttribution.swift:120-122 | the life token is dropped; nothing else changes |
| `Sanitizing.ReplaceDashes` | WordPress/Classes/Utility/iAds/SearchAdsAttribution.swift:91 | the rewritten key has the same length and contains no `-` |
| `Sanitizing.Sanitize` | WordPress/Classes/Utility/iAds/SearchAdsAttribution.swift:88-97 | the result's keys are exactly the rewritten input keys, and each value is the string (or the description) of the value of some input key that rewrites to its key |
| `Sanitizing.SanitizedKeysNoLarger` | WordPress/Classes/Utility/iAds/SearchAdsAttribution.swift:91-93 | rewriting keys never yields more keys than there were |
| `Sanitizing.SanitizedShape` | WordPress/Classes/Utility/iAds/SearchAdsAttribution.swift:88-97 | no key of a sanitized dictionary contains `-`, and it has no more entries than the input |
| `Sanitizing.SanitizedUniqueKey` | WordPress/Classes/Utility/iAds/SearchAdsAttribution.swift:91-93 | a key no other key collides with is present rewritten, with a string value kept as it is and any other value given by its description |
| `Sanitizing.DashFreeKeyUnchanged` | WordPress/Classes/Utility/iAds/SearchAdsAttribution.swift:91 | a key without `-` is not changed |
| `Sanitizing.DashFreeKeysUnchanged` | WordPress/Classes/Utility/iAds/SearchAdsAttribution.swift:91 | a set of keys without `-` rewrites to itself |
| `Sanitizing.ResanitizedKeys` | WordPress/Classes/Utility/iAds/SearchAdsAttribution.swift:88-97 | sanitizing a sanitized dictionary again keeps its keys |
| `Sanitizing.ResanitizedEntry` | WordPress/Classes/Utility/iAds/SearchAdsAttribution.swift:88-97 | sanitizing a sanitized dictionary again keeps each entry |
| `Sanitizing.SanitizeIdempotent` | WordPress/Classes/Utility/iAds/SearchAdsAttribution.swift:88-97 | sanitizing a sanitized dictionary again gives it back unchanged |
| `Sanitizing.SanitizeExample` | WordPress/Classes/Utility/iAds/SearchAdsAttribution.swift:88-97 | `iad-org-name` and `iad-campaign-id` come out as `iad_org_name` and `iad_campaign_id`, with the string kept and the number reported by its description |
| `AttributionMachine.DetailsOutcome` | WordPress/Classes/Utility/iAds/SearchAdsAttribution.swift:73-84 | a reply whose details hold a `"Version3.1"` entry that is a dictionary tracks one event and marks the details sent; a reply with no details, no such key or a non-dictionary entry tracks nothing and leaves the details unsent; the token is dropped either way and tracking-limited and the request count are kept |
| `AttributionMachine.ReleasedIsFinal` | WordPress/Classes/Utility/iAds/SearchAdsAttribution.swift:118-122 | once the life token is dropped, no request, reply or retry can occur any more |
| `AttributionMachine.InitialInv` | WordPress/Classes/Utility/iAds/SearchAdsAttribution.swift:43-46 | a new instance satisfies the reporter's invariant, whatever the persisted flags |
| `AttributionMachine.StepInv` | WordPress/Classes/Utility/iAds/SearchAdsAttribution.swift:48-116 | every step keeps the invariant: never a request and a retry at once, no request in flight once a flag is set, at most one event, and an event only with the details marked sent |
| `AttributionMachine.RunInv` | WordPress/Classes/Utility/iAds/SearchAdsAttribution.swift:48-116 | every run keeps that invariant |
| `AttributionMachine.FlagsMonotone` | WordPress/Classes/Utility/iAds/SearchAdsAttribution.swift:73-110 | over any run, neither persisted flag goes from true back to false, and requests and events only accumulate |
| `AttributionMachine.AtMostOneReport` | WordPress/Classes/Utility/iAds/SearchAdsAttribution.swift:73-84 | over any run of one launch, at most one event is tracked, and none if the details were sent by an earlier launch |
| `AttributionMachine.NothingOnceFlagged` | WordPress/Classes/Utility/iAds/SearchAdsAttribution.swift:48-56 | once either flag is set, no further request is issued and no further event is tracked, whatever happens |
| `AttributionMachine.RunAppend` | WordPress/Classes/Utility/iAds/SearchAdsAttribution.swift:48-116 | running two input sequences one after the other is running their concatenation |
| `AttributionMachine.RetryRound` | WordPress/Classes/Utility/iAds/SearchAdsAttribution.swift:99-116 | one error other than limit-ad-tracking followed by its retry issues the request again and changes nothing else |
| `AttributionMachine.RetriesKeepAsking` | WordPress/Classes/Utility/iAds/SearchAdsAttribution.swift:102-104 | errors other than limit-ad-tracking, each followed by the retry, keep both flags and the token, leave a request in flight and issue one request per retry |
| `AttributionMachine.RetriesThenReport` | WordPress/Classes/Utility/iAds/SearchAdsAttribution.swift:48-116 | any number of transient errors followed by details holding the version dictionary end with exactly one event, the details sent, tracking not limited, the token dropped and one request per attempt |
| `AttributionMachine.FailureOutcome` | WordPress/Classes/Utility/iAds/SearchAdsAttribution.swift:99-110 | an error schedules no retry exactly when its code is limit-ad-tracking; then the flag is set and the token dropped, otherwise a retry after 5 seconds is scheduled and the flag and token kept |

## Left out

- `WordPress/Classes/ViewRelated/Plugins/PluginListViewController.swift`: table and view glue over view-model and widget code that is not part of this model.
- The ad client's asynchronous request, the main-queue dispatch and the 5-second timer: a reply is the argument of `CompleteRequest`, a scheduled retry is the `scheduledRetry` field, and its firing is a call of `RetryFired`.
- The `[weak self]` captures and memory release: release is modelled only as the `alive` field. A request is only started while the instance holds the token, and `ReleasedIsFinal` proves that no reply or retry is outstanding once it is dropped, so no handler can run on a released instance.
- The persistent store: the flags are fields, and their stored values are constructor arguments.
- The analytics call: tracking is an append to the `events` log; the event name, always the same, is not recorded.
- The simulator check: a boolean parameter of `RequestDetails` and `RetryFired`.
- The text `String(describing:)` produces: the `Other` case of `Value` carries that text instead of computing it.
- Which value wins when two input keys rewrite to the same key: dictionary iteration order is unspecified, so `Sanitize` chooses entries in any order and its contract names some colliding key's value, not a particular one.
- The numeric value of the limit-ad-tracking error code comes from the iAd framework, which is not part of this model; it is taken as 1.
- `RequestDetails` requires that the instance holds the life token and that no request is in flight and no retry is pending: the source has no lock and relies on each new instance being started once per launch, so a second start, or a start after release, is not modelled.
- Key comparison and replacement work on characters one by one: Swift compares dictionary keys by canonical equivalence and `replacingOccurrences(of:with:)` searches non-literally, which can differ from this model only for keys with non-ASCII characters.
