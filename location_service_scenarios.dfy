/**
 * The location service's unit tests, each stated as a lemma over the state
 * machine: a fresh service (updates not stopped, no memo), a policy with
 * updates and background location allowed, and the commands the test sends.
 */
module LocationServiceScenarios {
  import opened Wrappers
  import opened RequestOptions
  import opened PendingResults
  import opened LocationServiceSpec

  /** Location updates enabled and background location allowed, as the tests' setup does. */
  const Allowed: Policy := Policy(true, true, false)

  /** Starting twice with unchanged options connects, cancels and requests once. */
  lemma StartUpdatesScenario(options: LocationRequestOptions)
    ensures OnStartUpdates(OnStartUpdates(Initial, Allowed, options), Allowed, options).calls
         == [Connect, CancelRequests, RequestLocationUpdates(options)]
  {
  }

  /** New options between two starts: two connects, two cancels, one request with the new options. */
  lemma StartUpdatesDifferentOptionsScenario(defaults: LocationRequestOptions, options: LocationRequestOptions)
    requires defaults != options
    ensures var t := OnStartUpdates(OnStartUpdates(Initial, Allowed, defaults), Allowed, options);
      && t.calls == [Connect, CancelRequests, RequestLocationUpdates(defaults), Connect, CancelRequests, RequestLocationUpdates(options)]
      && Count(t.calls, Connect) == 2
      && Count(t.calls, CancelRequests) == 2
      && Count(t.calls, RequestLocationUpdates(options)) == 1
  {
    var t := OnStartUpdates(OnStartUpdates(Initial, Allowed, defaults), Allowed, options);
    var first := [Connect, CancelRequests, RequestLocationUpdates(defaults)];
    var second := [Connect, CancelRequests, RequestLocationUpdates(options)];
    assert t.calls == first + second;
    forall c: ProviderCall ensures Count(t.calls, c) == Count(first, c) + Count(second, c) {
      CountAppend(first, second, c);
    }
    CountOfRestart(defaults, Connect);
    CountOfRestart(options, Connect);
    CountOfRestart(defaults, CancelRequests);
    CountOfRestart(options, CancelRequests);
    CountOfRestart(defaults, RequestLocationUpdates(options));
    CountOfRestart(options, RequestLocationUpdates(options));
  }

  /** How often a call occurs in one restart triple. */
  lemma CountOfRestart(options: LocationRequestOptions, c: ProviderCall)
    ensures Count([Connect, CancelRequests, RequestLocationUpdates(options)], c)
         == (if c == Connect then 1 else 0) + (if c == CancelRequests then 1 else 0) + (if c == RequestLocationUpdates(options) then 1 else 0)
  {
    var triple := [Connect, CancelRequests, RequestLocationUpdates(options)];
    assert triple[1..] == [CancelRequests, RequestLocationUpdates(options)];
    assert triple[1..][1..] == [RequestLocationUpdates(options)];
    assert triple[1..][1..][1..] == [];
    assert Count(triple[1..][1..], c) == if c == RequestLocationUpdates(options) then 1 else 0;
    assert Count(triple[1..], c) == (if c == CancelRequests then 1 else 0) + Count(triple[1..][1..], c);
  }

  /** Stopping twice cancels once. */
  lemma StopUpdatesScenario()
    ensures OnStopUpdates(Initial).calls == [CancelRequests]
    ensures OnStopUpdates(OnStopUpdates(Initial)).calls == [CancelRequests]
  {
  }

  /** A continuous fix is recorded with no options and the CONTINUOUS type. */
  lemma LocationUpdateScenario(location: Location)
    ensures OnLocationUpdate(Initial, Allowed, Some(location), None).records == [LocationRecord(location, None, Continuous)]
  {
  }

  /** An update without a location records nothing. */
  lemma LocationUpdateNullLocationScenario()
    ensures OnLocationUpdate(Initial, Allowed, None, None).records == []
  {
  }

  /** With updates and background location disabled, a fix is not recorded. */
  lemma LocationUpdateLocationDisabledScenario(location: Location)
    ensures OnLocationUpdate(Initial, Policy(false, false, false), Some(location), None).records == []
  {
  }

  /** A provider change connects, cancels and requests once. */
  lemma ProviderChangeScenario(options: LocationRequestOptions)
    ensures OnProviderChanged(Initial, options).calls == [Connect, CancelRequests, RequestLocationUpdates(options)]
  {
  }

  /** Options carried by an update make the following start with equal options a no-op. */
  lemma StartingLocationAfterUpdateScenario(options: LocationRequestOptions)
    ensures OnStartUpdates(OnLocationUpdate(Initial, Allowed, None, Some(options)), Allowed, options).calls == []
  {
  }

  /** A single request: one connect, one request; its result is answered once under id 101 and recorded as SINGLE. */
  lemma RequestSingleUpdateScenario(options: LocationRequestOptions, location: Location, client: Messenger)
    ensures var s1 := OnRequestSingle(Initial, Some(options), RequestKey(client, 101), true);
      var s2 := OnSingleResult(s1, 0, location);
      && s1.calls == [Connect, RequestSingleLocation(options)]
      && s2.replies == [Message(SingleRequestResult, client, 101, Some(location))]
      && s2.records == [LocationRecord(location, Some(options), Single)]
      && s2.pending == map[]
  {
  }

  /** The provider returns no request: one reply under id 101 with a null location. */
  lemma RequestSingleUpdateFailedScenario(options: LocationRequestOptions, client: Messenger)
    ensures OnRequestSingle(Initial, Some(options), RequestKey(client, 101), false).replies
         == [Message(SingleRequestResult, client, 101, None)]
  {
  }

  /** No options: no call on the provider, and one reply under id 101 with a null location. */
  lemma RequestSingleUpdateInvalidOptionsScenario(client: Messenger, providerReturnsRequest: bool)
    ensures var t := OnRequestSingle(Initial, None, RequestKey(client, 101), providerReturnsRequest);
      && t.calls == []
      && t.replies == [Message(SingleRequestResult, client, 101, None)]
  {
  }

  /** Cancelling id 101 cancels the request; the result set afterwards sends nothing. */
  lemma CancelSingleUpdateScenario(options: LocationRequestOptions, location: Location, client: Messenger)
    ensures var s1 := OnRequestSingle(Initial, Some(options), RequestKey(client, 101), true);
      var s2 := OnCancelSingle(s1, RequestKey(client, 101));
      var s3 := OnSingleResult(s2, 0, location);
      && s2.requests[0].result.IsCanceled()
      && s3.replies == []
  {
  }

  /** A subscriber gets the first fix; after unsubscribing it gets nothing more. */
  lemma SubscribingLocationUpdatesScenario(m: Messenger, location: Location)
    ensures var s1 := OnLocationUpdate(OnSubscribe(Initial, m), Allowed, Some(location), None);
      var s2 := OnLocationUpdate(OnUnsubscribe(s1, m), Allowed, Some(location), None);
      s2.replies == [Message(NewLocationUpdate, m, 0, Some(location))]
  {
  }
}
