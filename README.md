# Location update coordination, modelled in Dafny

This project models the location core of the Urban Airship Android library:

- the **standard location adapter** (`StandardLocationAdapter.java`). It maps a
  request priority to Android location criteria. It picks the best provider,
  with the no-power rule: only the passive provider, and only when it is
  enabled. It registers pending intents for continuous updates. It also runs
  single-shot requests. A single-shot request re-arms itself when its provider
  is disabled or a better one is enabled, and tears everything down on its
  first fix or on cancel;
- the **location service's command handlers**, as `LocationServiceTest.java`
  pins them down. These are start, stop, location update, provider change,
  single request, cancel of a single request, subscribe and unsubscribe. They
  act on an update memo and a stopped flag, a table of in-flight single
  requests, and a subscriber list. Their effects go to the location provider,
  to analytics and to clients;
- the **pending result** of a single-shot request: PENDING, then at most one of
  COMPLETED(location) or CANCELED.

The Android `LocationManager` is modelled abstractly in `location_manager.dfy`:

- a ranked list of providers. Each has a name, an enabled flag, and the set of
  criteria the host says it meets;
- a registration table. It maps each listener or pending intent to the
  providers it listens on and at what rate.

Registering a listener again on the same provider replaces that registration,
as Android keeps one update record per receiver and provider. The sentinel pair
(`Long.MAX_VALUE`, `Float.MAX_VALUE`), which the adapter uses to listen for
providers being enabled or disabled, is the rate `ListenOnly`. The model gives
a `ListenOnly` registration no fixes, only enabled/disabled callbacks. Android's ranking in
`getBestProvider(criteria, true)` is opaque to the adapter. Here it is the order
of the provider list: the best provider is the first enabled provider that meets
the criteria.

The source of `LocationService` itself is not part of this model. Its behaviour
comes from `LocationServiceTest.java`. Where the tests are silent, the rules
below are this model's own assumptions about the service:

- A start is ignored when continuous updates are not allowed. Updates are
  allowed when they are enabled and, in the background, when background
  location is allowed.
- A start is also ignored when updates are not stopped and the options equal
  the memo. Otherwise the service connects, cancels its intent, requests
  updates, remembers the options and clears the stopped flag.
- A stop cancels only when updates are not already stopped. It keeps the memo:
  the stopped flag alone makes the next start go through.
- A provider change does the same connect/cancel/request triple
  unconditionally: whatever the memo, the stopped flag or the policy holds.
- A location update stores the request options it carries as the memo. It
  records the fix and sends it to subscribers only when a location is present
  and updates are allowed.
- A single request is keyed by the client's messenger and its request id (the
  cancel message in `LocationServiceTest.java:361-364` carries both). A new
  request under a key whose earlier request is still pending cancels that
  earlier request.
- Subscribers are kept as a duplicate-free list. Fixes go out in subscription
  order.

Layout: `wrappers.dfy` (Option), `request_options.dfy`, `pending_result.dfy`,
`location_manager.dfy`, `standard_location_adapter.dfy`,
`location_service_spec.dfy` (the service as a state machine over values, with
its properties), `location_service.dfy` (the service as an object whose handlers
are proved to follow the state machine) and `location_service_scenarios.dfy`
(the unit tests as lemmas).

## Model

| member | source | states |
|---|---|---|
| `StandardAdapter.CreateCriteria` | UrbanAirship/src/main/java/com/urbanairship/location/StandardLocationAdapter.java:119-140 | Fine accuracy is asked for exactly under high accuracy, and coarse exactly under balanced. Power is high, medium or low exactly for high accuracy, balanced, and low/no power. Low power always comes with no accuracy requirement. |
| `StandardAdapter.CriteriaSeparatesPriorities` | UrbanAirship/src/main/java/com/urbanairship/location/StandardLocationAdapter.java:123-137 | Two priorities give the same criteria exactly when they are equal or both are low/no power. |
| `StandardAdapter.GetBestProvider` | UrbanAirship/src/main/java/com/urbanairship/location/StandardLocationAdapter.java:149-163 | Any provider returned is enabled and meets the criteria. Under no-power the result is "passive" exactly when passive is among the enabled providers meeting the criteria, and nothing otherwise. Under other priorities the result is empty exactly when no enabled provider meets the criteria. |
| `StandardAdapter.NoPowerNeverSelectsActive` | UrbanAirship/src/main/java/com/urbanairship/location/StandardLocationAdapter.java:150-159 | A no-power request never selects a provider other than the passive one. |
| `StandardAdapter.IntentRegistrations` | UrbanAirship/src/main/java/com/urbanairship/location/StandardLocationAdapter.java:67-90 | After requestLocationUpdates the intent listens only on every provider meeting the criteria, enabled or not. The best provider, when non-empty, gets the options' minTime/minDistance instead. Registrations on other providers are kept. |
| `StandardAdapter.RealRegistrationIsOnBestProvider` | UrbanAirship/src/main/java/com/urbanairship/location/StandardLocationAdapter.java:80-89 | Starting from listen-only registrations, the only real-rate registration of the intent is on an enabled provider meeting the criteria, with the options' rate. |
| `StandardAdapter.ListenOnAll` | UrbanAirship/src/main/java/com/urbanairship/location/StandardLocationAdapter.java:70-77 | The loop registers the listener listen-only on each provider in turn. Its registrations become ListenOnlyAll of the list, and no other listener changes. |
| `StandardAdapter.StandardLocationAdapter.RequestLocationUpdates` | UrbanAirship/src/main/java/com/urbanairship/location/StandardLocationAdapter.java:67-90 | The intent's registrations become IntentRegistrations of its old ones, and every other listener is untouched. |
| `StandardAdapter.StandardLocationAdapter.Connect` | UrbanAirship/src/main/java/com/urbanairship/location/StandardLocationAdapter.java:92-95 | connect always succeeds. |
| `StandardAdapter.StandardLocationAdapter.Disconnect` | UrbanAirship/src/main/java/com/urbanairship/location/StandardLocationAdapter.java:97-99 | disconnect changes nothing. |
| `StandardAdapter.StandardLocationAdapter.CancelLocationUpdates` | UrbanAirship/src/main/java/com/urbanairship/location/StandardLocationAdapter.java:101-105 | The intent is left with no registration, and every other listener is untouched. |
| `StandardAdapter.StandardLocationAdapter.RequestSingleLocation` | UrbanAirship/src/main/java/com/urbanairship/location/StandardLocationAdapter.java:107-110 | Returns a fresh, consistent, pending request whose current provider is the best provider for its options. |
| `StandardAdapter.SingleLocationRequest.CurrentRegistrations` | UrbanAirship/src/main/java/com/urbanairship/location/StandardLocationAdapter.java:229-243 | The current-provider listener holds at most one registration. It holds one exactly while the request is not done and has a current provider. |
| `StandardAdapter.SingleLocationRequest.constructor` | UrbanAirship/src/main/java/com/urbanairship/location/StandardLocationAdapter.java:184-227 | The new request is pending and consistent. Its current provider is the fresh best provider. It has provider-enabled registrations only when not no-power. Other listeners are untouched. |
| `StandardAdapter.SingleLocationRequest.ListenForLocationChanges` | UrbanAirship/src/main/java/com/urbanairship/location/StandardLocationAdapter.java:229-243 | The current provider becomes the fresh best provider, possibly none. The current-provider listener then holds exactly one (0, 0) registration on it, or none. |
| `StandardAdapter.SingleLocationRequest.ListenForProvidersEnabled` | UrbanAirship/src/main/java/com/urbanairship/location/StandardLocationAdapter.java:249-261 | The provider-enabled listener gains a listen-only registration on every provider meeting the criteria, enabled or not, and keeps its other registrations (from the constructor's empty start, these are its only ones). |
| `StandardAdapter.SingleLocationRequest.StopUpdates` | UrbanAirship/src/main/java/com/urbanairship/location/StandardLocationAdapter.java:272-275 | Neither of the request's listeners keeps a registration, and every other listener is untouched. |
| `StandardAdapter.SingleLocationRequest.OnLocationChanged` | UrbanAirship/src/main/java/com/urbanairship/location/StandardLocationAdapter.java:189-194 | On a fix, both listeners are left with no registration. The result becomes setResult of the fix, which is a no-op when already done. |
| `StandardAdapter.SingleLocationRequest.OnProviderDisabled` | UrbanAirship/src/main/java/com/urbanairship/location/StandardLocationAdapter.java:196-204 | While not done, a disable always re-selects the best provider. When done, nothing changes. |
| `StandardAdapter.SingleLocationRequest.OnProviderEnabled` | UrbanAirship/src/main/java/com/urbanairship/location/StandardLocationAdapter.java:207-220 | While not done, an enable re-selects only if the best provider is non-null and differs from the current one. Otherwise the current provider is unchanged. |
| `StandardAdapter.SingleLocationRequest.Cancel` | UrbanAirship/src/main/java/com/urbanairship/location/StandardLocationAdapter.java:263-267 | Cancel moves a pending request to CANCELED, and neither listener keeps a registration. |
| `StandardAdapter.DisableProvider` | UrbanAirship/src/main/java/com/urbanairship/location/StandardLocationAdapter.java:196-204 | When the host disables the provider a pending request uses, the request re-selects the fresh best provider, which is no longer the disabled one. Otherwise its provider is unchanged. Only the current-provider listener's registrations may change, and the request stays consistent. |
| `StandardAdapter.EnableProvider` | UrbanAirship/src/main/java/com/urbanairship/location/StandardLocationAdapter.java:207-220 | When the host enables a provider that a pending, not no-power request's criteria accept, the request re-selects only if the best provider exists and differs from its current one. Otherwise its provider is unchanged. Only the current-provider listener's registrations may change, and the request stays consistent. |
| `LocationManagerModel.GetProviders` | UrbanAirship/src/main/java/com/urbanairship/location/StandardLocationAdapter.java:70 | A name is listed exactly when some provider of that name meets the criteria, and is enabled when only enabled providers are asked for. |
| `LocationManagerModel.BestProvider` | UrbanAirship/src/main/java/com/urbanairship/location/StandardLocationAdapter.java:161 | The oracle's result is an enabled provider meeting the criteria. It is empty exactly when there is none. |
| `LocationManagerModel.ListenOnlyAll` | UrbanAirship/src/main/java/com/urbanairship/location/StandardLocationAdapter.java:72-76 | After the loop, the listener listens only on every listed provider and keeps its other registrations. |
| `LocationManagerModel.AllProvidersIgnoreEnablement` | UrbanAirship/src/main/java/com/urbanairship/location/StandardLocationAdapter.java:250 | Enabling or disabling a provider does not change the providers that meet a criteria regardless of state. So the provider-enabled registrations stay right. |
| `LocationManagerModel.LocationManager.RequestUpdates` | UrbanAirship/src/main/java/com/urbanairship/location/StandardLocationAdapter.java:75 | Registering a listener on a provider sets that one registration's rate, and touches no other listener. |
| `LocationManagerModel.LocationManager.RemoveUpdates` | UrbanAirship/src/main/java/com/urbanairship/location/StandardLocationAdapter.java:104 | Removing a listener drops all its registrations, and touches no other listener. |
| `PendingResults.PendingResult.SetResult` | UrbanAirship/src/main/java/com/urbanairship/location/StandardLocationAdapter.java:193 | setResult completes a pending result with exactly the given value. On a completed or canceled result it changes nothing. |
| `PendingResults.PendingResult.Cancel` | UrbanAirship/src/test/java/com/urbanairship/location/LocationServiceTest.java:366-370 | cancel turns a pending result into a canceled one. On a completed or canceled result it changes nothing. |
| `PendingResults.DoneIsFinal` | UrbanAirship/src/test/java/com/urbanairship/location/LocationServiceTest.java:366-373 | A completed or canceled result never changes again and delivers nothing, whatever events follow. |
| `PendingResults.CanceledNeverDelivers` | UrbanAirship/src/test/java/com/urbanairship/location/LocationServiceTest.java:366-373 | A canceled result delivers no value to its callback, even when a result is set later. |
| `PendingResults.AtMostOneDelivery` | UrbanAirship/src/test/java/com/urbanairship/location/LocationServiceTest.java:264-279 | Along any events the callback fires at most once. When it fires, the result holds exactly the delivered value. |
| `LocationServiceSpec.Broadcast` | UrbanAirship/src/test/java/com/urbanairship/location/LocationServiceTest.java:386-400 | One new-location message per subscriber, each to a subscriber and carrying the fix. |
| `LocationServiceSpec.StartUpdatesIdempotent` | UrbanAirship/src/test/java/com/urbanairship/location/LocationServiceTest.java:88-106 | A second start with the same policy and options changes nothing. |
| `LocationServiceSpec.StartUpdatesCallCounts` | UrbanAirship/src/test/java/com/urbanairship/location/LocationServiceTest.java:111-132 | A start that is not ignored adds exactly one connect, one cancel and one request with the current options, and stores them as the memo. |
| `LocationServiceSpec.StopUpdatesIdempotent` | UrbanAirship/src/test/java/com/urbanairship/location/LocationServiceTest.java:137-149 | A second stop changes nothing, so two stops cancel at most once. |
| `LocationServiceSpec.StopThenStartRequestsAgain` | UrbanAirship/src/test/java/com/urbanairship/location/LocationServiceTest.java:137-149 | Start, stop, start with the same options requests updates with them twice. |
| `LocationServiceSpec.ProviderChangeForcesRestart` | UrbanAirship/src/test/java/com/urbanairship/location/LocationServiceTest.java:197-212 | A provider change adds exactly connect, cancel, request(options), whatever the memo or the stopped flag holds. |
| `LocationServiceSpec.MemoFromUpdateSuppressesStart` | UrbanAirship/src/test/java/com/urbanairship/location/LocationServiceTest.java:219-232 | An update carrying options makes the next start with equal options call nothing, unless updates were stopped. |
| `LocationServiceSpec.ContinuousUpdateRecorded` | UrbanAirship/src/test/java/com/urbanairship/location/LocationServiceTest.java:154-191 | A fix is recorded once as (location, null, CONTINUOUS) exactly when present and allowed. Otherwise nothing is recorded or sent. |
| `LocationServiceSpec.BroadcastReachesEachOnce` | UrbanAirship/src/test/java/com/urbanairship/location/LocationServiceTest.java:379-419 | Each subscriber receives exactly one copy of a broadcast fix, and a non-subscriber receives none. |
| `LocationServiceSpec.UnsubscribedReceivesNothing` | UrbanAirship/src/test/java/com/urbanairship/location/LocationServiceTest.java:402-418 | After unsubscribing, a client receives none of the next fix, while every other subscriber receives it once. |
| `LocationServiceSpec.RequestSingleStoresAndReplaces` | UrbanAirship/src/test/java/com/urbanairship/location/LocationServiceTest.java:237-279 | From any consistent state, a request the provider accepts adds exactly connect and requestSingleLocation(options), sends no reply and no record yet, is stored pending under its key, and cancels the pending request it replaces. Every other key keeps its entry. |
| `LocationServiceSpec.RequestSinglePreservesValid` | UrbanAirship/src/test/java/com/urbanairship/location/LocationServiceTest.java:338-374 | After any single request the table still holds exactly the pending requests, each under its own key. |
| `LocationServiceSpec.SingleResultPreservesValid` | UrbanAirship/src/test/java/com/urbanairship/location/LocationServiceTest.java:338-374 | Completing a request removes it from the table and keeps the invariant. |
| `LocationServiceSpec.CancelSinglePreservesValid` | UrbanAirship/src/test/java/com/urbanairship/location/LocationServiceTest.java:338-374 | Canceling a request removes it from the table and keeps the invariant. |
| `LocationServiceSpec.StepPreservesValid` | UrbanAirship/src/test/java/com/urbanairship/location/LocationServiceTest.java:338-374 | Every command keeps the invariant: the table holds exactly the pending requests, each under its own key, and no client is subscribed twice. |
| `LocationServiceSpec.RunPreservesValid` | UrbanAirship/src/test/java/com/urbanairship/location/LocationServiceTest.java:338-374 | The invariant holds after any sequence of commands. |
| `LocationServiceSpec.StepKeepsDoneRequest` | UrbanAirship/src/test/java/com/urbanairship/location/LocationServiceTest.java:366-373 | No command alters a request that is already done. |
| `LocationServiceSpec.DoneRequestIgnoresLateResults` | UrbanAirship/src/test/java/com/urbanairship/location/LocationServiceTest.java:366-373 | Once a request is done, results for it are discarded: any command sequence ends as it would without them. |
| `LocationServiceSpec.CancelThenResultSendsNothing` | UrbanAirship/src/test/java/com/urbanairship/location/LocationServiceTest.java:338-374 | Cancel marks the request canceled and removes it from the table. A later result then sends and records nothing. |
| `LocationServiceSpec.ResultRepliesOnce` | UrbanAirship/src/test/java/com/urbanairship/location/LocationServiceTest.java:264-279 | A pending request's result sends exactly one reply (SINGLE_REQUEST_RESULT, client, id, location) and records (location, options, SINGLE). It leaves the table, and a repeated result is ignored. |
| `LocationServiceSpec.FailedRequestAnsweredAtOnce` | UrbanAirship/src/test/java/com/urbanairship/location/LocationServiceTest.java:282-333 | Missing options, or no request from the provider, gives exactly one null reply under the id and keeps the table as it was. Missing options also make no provider call. |
| `LocationService.LocationService.constructor` | UrbanAirship/src/test/java/com/urbanairship/location/LocationServiceTest.java:65-79 | A new service has updates not stopped, no memo, and nothing in flight or logged. |
| `LocationService.LocationService.RequestUpdates` | UrbanAirship/src/test/java/com/urbanairship/location/LocationServiceTest.java:98-105 | Appends connect, cancel, request(options), remembers the options and clears the stopped flag. |
| `LocationService.LocationService.OnStartUpdates` | UrbanAirship/src/test/java/com/urbanairship/location/LocationServiceTest.java:88-132 | The new state is `LocationServiceSpec.OnStartUpdates` of the old one: nothing when updates are not allowed or already run with equal options, otherwise connect, cancel, request and remember the options. The invariant is kept. |
| `LocationService.LocationService.OnStopUpdates` | UrbanAirship/src/test/java/com/urbanairship/location/LocationServiceTest.java:137-149 | The new state is `LocationServiceSpec.OnStopUpdates` of the old one: one cancel unless updates are already stopped, then updates are stopped. |
| `LocationService.LocationService.OnProviderChanged` | UrbanAirship/src/test/java/com/urbanairship/location/LocationServiceTest.java:197-212 | The new state is `LocationServiceSpec.OnProviderChanged` of the old one: connect, cancel, request and remember the options, unconditionally. |
| `LocationService.LocationService.NotifySubscribers` | UrbanAirship/src/test/java/com/urbanairship/location/LocationServiceTest.java:386-400 | The loop appends exactly Broadcast(subscribers, location) to the replies. |
| `LocationService.LocationService.OnLocationUpdate` | UrbanAirship/src/test/java/com/urbanairship/location/LocationServiceTest.java:154-232 | The new state is `LocationServiceSpec.OnLocationUpdate` of the old one: the carried options become the memo, and a present fix is recorded and sent to every subscriber when updates are allowed. |
| `LocationService.LocationService.OnRequestSingle` | UrbanAirship/src/test/java/com/urbanairship/location/LocationServiceTest.java:237-333 | The new state is `LocationServiceSpec.OnRequestSingle` of the old one: missing options or a null request get one null reply, otherwise the request is stored under its key and an earlier pending one is canceled. The table invariant is kept. |
| `LocationService.LocationService.OnSingleResult` | UrbanAirship/src/test/java/com/urbanairship/location/LocationServiceTest.java:264-279 | The new state is `LocationServiceSpec.OnSingleResult` of the old one: a pending request completes, replies once, is recorded and leaves the table. The table invariant is kept. |
| `LocationService.LocationService.OnCancelSingle` | UrbanAirship/src/test/java/com/urbanairship/location/LocationServiceTest.java:360-373 | The new state is `LocationServiceSpec.OnCancelSingle` of the old one: the pending request under the key is canceled and leaves the table. The table invariant is kept. |
| `LocationService.LocationService.OnSubscribe` | UrbanAirship/src/test/java/com/urbanairship/location/LocationServiceTest.java:381-384 | The new state is `LocationServiceSpec.OnSubscribe` of the old one: the client is added once. |
| `LocationService.LocationService.OnUnsubscribe` | UrbanAirship/src/test/java/com/urbanairship/location/LocationServiceTest.java:402-405 | The new state is `LocationServiceSpec.OnUnsubscribe` of the old one: the client is removed. |
| `LocationServiceScenarios.StartUpdatesScenario` | UrbanAirship/src/test/java/com/urbanairship/location/LocationServiceTest.java:88-106 | Two starts with unchanged options: calls are exactly connect, cancel, request(options). |
| `LocationServiceScenarios.StartUpdatesDifferentOptionsScenario` | UrbanAirship/src/test/java/com/urbanairship/location/LocationServiceTest.java:111-132 | New options between two starts: two connects, two cancels, one request with the new options. |
| `LocationServiceScenarios.StopUpdatesScenario` | UrbanAirship/src/test/java/com/urbanairship/location/LocationServiceTest.java:137-149 | One stop and two stops both cancel exactly once. |
| `LocationServiceScenarios.LocationUpdateScenario` | UrbanAirship/src/test/java/com/urbanairship/location/LocationServiceTest.java:154-162 | The fix is recorded as (location, null, CONTINUOUS). |
| `LocationServiceScenarios.LocationUpdateNullLocationScenario` | UrbanAirship/src/test/java/com/urbanairship/location/LocationServiceTest.java:167-173 | No location, no record. |
| `LocationServiceScenarios.LocationUpdateLocationDisabledScenario` | UrbanAirship/src/test/java/com/urbanairship/location/LocationServiceTest.java:178-191 | Updates and background disabled: no record. |
| `LocationServiceScenarios.ProviderChangeScenario` | UrbanAirship/src/test/java/com/urbanairship/location/LocationServiceTest.java:197-212 | One connect, one cancel, one request. |
| `LocationServiceScenarios.StartingLocationAfterUpdateScenario` | UrbanAirship/src/test/java/com/urbanairship/location/LocationServiceTest.java:219-232 | No call at all after an update carrying the options. |
| `LocationServiceScenarios.RequestSingleUpdateScenario` | UrbanAirship/src/test/java/com/urbanairship/location/LocationServiceTest.java:237-280 | Connect and request once. The result sends exactly the reply (SINGLE_REQUEST_RESULT, 101, location) and records (location, options, SINGLE). |
| `LocationServiceScenarios.RequestSingleUpdateFailedScenario` | UrbanAirship/src/test/java/com/urbanairship/location/LocationServiceTest.java:285-306 | No request from the provider: exactly one reply with id 101 and a null location. |
| `LocationServiceScenarios.RequestSingleUpdateInvalidOptionsScenario` | UrbanAirship/src/test/java/com/urbanairship/location/LocationServiceTest.java:312-333 | No options: no provider call, and exactly one reply with id 101 and a null location. |
| `LocationServiceScenarios.CancelSingleUpdateScenario` | UrbanAirship/src/test/java/com/urbanairship/location/LocationServiceTest.java:338-374 | After cancel the request is canceled, and the later result sends nothing. |
| `LocationServiceScenarios.SubscribingLocationUpdatesScenario` | UrbanAirship/src/test/java/com/urbanairship/location/LocationServiceTest.java:379-419 | The subscriber receives the first fix once and not the one after unsubscribing. |

## Left out

- Threads and the `synchronized` blocks (StandardLocationAdapter.java:199, 211): every callback is one method call, run one at a time.
- Logging (`Logger.verbose`) is not modelled.
- Transport is not modelled: intents, bundles, `Messenger`, `PendingIntent` and the looper. Replies form an append-only log of (what, destination, arg1, location). The bundle form of request options is not modelled. Options that cannot be read from a message are the value `None`.
- Analytics is an external sink: each `recordLocation` call is one entry in a log.
- Floating point is not modelled: minDistance is a whole number of metres. The `Long.MAX_VALUE`/`Float.MAX_VALUE` pair is the tag `ListenOnly`.
- `LocationManagerModel.BestProvider`: Android loosens the criteria (power first, then accuracy) when no provider meets them. The oracle here returns an enabled provider meeting the criteria, or none.
- `LocationManagerModel.GetProviders` never returns a null list, since the list comes from the modelled state. The null checks at StandardLocationAdapter.java:71, 152 and 251 therefore have no counterpart.
- Providers that do not exist: Android refuses registration on an unknown provider. Every name registered here comes from the provider list, so that case cannot arise.
- The Android dispatch of enabled/disabled callbacks is represented only by `StandardAdapter.DisableProvider` and `StandardAdapter.EnableProvider`. They notify a request's listener when it listens on that provider. Fixes arriving on a listener are calls of `OnLocationChanged`.
- `StandardAdapter.SingleLocationRequest.constructor` and `StandardAdapter.StandardLocationAdapter.RequestSingleLocation` require that the two listeners have no registrations yet. In Java they are freshly allocated objects; here they are named by a key.
- The service's pending requests are values in a list that the service owns. The provider sets a result by the request's index in that list. Java object identity and aliasing between the adapter's request object and the service's table are not modelled.
- The `PendingResult` class itself is not part of this model. Only what it does to its state is modelled, together with the rule that its callback runs once, on a result. Callbacks attached after completion are not modelled.
- The service's location provider is not modelled here. In the service model it is the log of calls the service makes on it, plus a flag saying whether it returned a request. The standard adapter above is one implementation of it.
- Min/max update age in the request options is never read by this core and is not modelled. Default options are not modelled either.
