/**
 * The location service as an object: each command handler updates the
 * service's fields in place, and is proved to produce exactly the state the
 * state machine in LocationServiceSpec prescribes, keeping its invariant.
 */
module LocationService {
  import opened Wrappers
  import opened RequestOptions
  import opened PendingResults
  import opened LocationServiceSpec

  class LocationService {
    var lastUpdateOptions: Option<LocationRequestOptions>
    var updatesStopped: bool
    var pending: map<RequestKey, nat>
    var requests: seq<SingleRequest>
    var subscribers: seq<Messenger>
    // what the service did to its collaborators, in order
    var calls: seq<ProviderCall>
    var records: seq<LocationRecord>
    var replies: seq<Message>

    function Snapshot(): State
      reads this
    {
      State(lastUpdateOptions, updatesStopped, pending, requests, subscribers, calls, records, replies)
    }

    constructor ()
      ensures Snapshot() == Initial
    {
      lastUpdateOptions := None;
      updatesStopped := false;
      pending := map[];
      requests := [];
      subscribers := [];
      calls := [];
      records := [];
      replies := [];
    }

    /** Connect, cancel the service's intent, request updates, and remember the options. */
    method RequestUpdates(options: LocationRequestOptions)
      modifies this
      ensures Snapshot() == Restart(old(Snapshot()), options)
    {
      calls := calls + [Connect];
      calls := calls + [CancelRequests];
      calls := calls + [RequestLocationUpdates(options)];
      lastUpdateOptions := Some(options);
      updatesStopped := false;
    }

    method OnStartUpdates(policy: Policy, options: LocationRequestOptions)
      requires Valid(Snapshot())
      modifies this
      ensures Valid(Snapshot())
      ensures Snapshot() == LocationServiceSpec.OnStartUpdates(old(Snapshot()), policy, options)
    {
      if !ContinuousUpdatesAllowed(policy) {
        return;
      }
      if !updatesStopped && lastUpdateOptions == Some(options) {
        return;
      }
      RequestUpdates(options);
    }

    method OnStopUpdates()
      requires Valid(Snapshot())
      modifies this
      ensures Valid(Snapshot())
      ensures Snapshot() == LocationServiceSpec.OnStopUpdates(old(Snapshot()))
    {
      if updatesStopped {
        return;
      }
      calls := calls + [CancelRequests];
      updatesStopped := true;
    }

    method OnProviderChanged(options: LocationRequestOptions)
      requires Valid(Snapshot())
      modifies this
      ensures Valid(Snapshot())
      ensures Snapshot() == LocationServiceSpec.OnProviderChanged(old(Snapshot()), options)
    {
      RequestUpdates(options);
    }

    /** Sends the location to every subscriber, one message each, in subscription order. */
    method NotifySubscribers(location: Location)
      modifies this`replies
      ensures replies == old(replies) + Broadcast(subscribers, location)
    {
      var i := 0;
      while i < |subscribers|
        invariant 0 <= i <= |subscribers|
        invariant replies == old(replies) + Broadcast(subscribers[..i], location)
      {
        replies := replies + [Message(NewLocationUpdate, subscribers[i], 0, Some(location))];
        assert subscribers[..i + 1][..i] == subscribers[..i];
        i := i + 1;
      }
      assert subscribers[..i] == subscribers;
    }

    method OnLocationUpdate(policy: Policy, location: Option<Location>, carried: Option<LocationRequestOptions>)
      requires Valid(Snapshot())
      modifies this
      ensures Valid(Snapshot())
      ensures Snapshot() == LocationServiceSpec.OnLocationUpdate(old(Snapshot()), policy, location, carried)
    {
      if carried.Some? {
        lastUpdateOptions := carried;
      }
      if location.None? || !ContinuousUpdatesAllowed(policy) {
        return;
      }
      records := records + [LocationRecord(location.value, None, Continuous)];
      NotifySubscribers(location.value);
    }

    method OnRequestSingle(options: Option<LocationRequestOptions>, key: RequestKey, providerReturnsRequest: bool)
      requires Valid(Snapshot())
      modifies this
      ensures Valid(Snapshot())
      ensures Snapshot() == LocationServiceSpec.OnRequestSingle(old(Snapshot()), options, key, providerReturnsRequest)
    {
      StepPreservesValid(Snapshot(), RequestSingle(options, key, providerReturnsRequest));
      if options.None? {
        replies := replies + [NullReply(key)];
        return;
      }
      calls := calls + [Connect, RequestSingleLocation(options.value)];
      if !providerReturnsRequest {
        replies := replies + [NullReply(key)];
        return;
      }
      if key in pending && pending[key] < |requests| {
        var h := pending[key];
        requests := requests[h := requests[h].(result := requests[h].result.Cancel())];
      }
      requests := requests + [SingleRequest(key, options.value, Pending)];
      pending := pending[key := |requests| - 1];
    }

    method OnSingleResult(handle: nat, location: Location)
      requires Valid(Snapshot())
      modifies this
      ensures Valid(Snapshot())
      ensures Snapshot() == LocationServiceSpec.OnSingleResult(old(Snapshot()), handle, location)
    {
      StepPreservesValid(Snapshot(), SingleResult(handle, location));
      if handle >= |requests| || requests[handle].result.IsDone() {
        return;
      }
      var r := requests[handle];
      requests := requests[handle := r.(result := Completed(location))];
      if r.key in pending && pending[r.key] == handle {
        pending := pending - {r.key};
      }
      replies := replies + [Message(SingleRequestResult, r.key.client, r.key.requestId, Some(location))];
      records := records + [LocationRecord(location, Some(r.options), Single)];
    }

    method OnCancelSingle(key: RequestKey)
      requires Valid(Snapshot())
      modifies this
      ensures Valid(Snapshot())
      ensures Snapshot() == LocationServiceSpec.OnCancelSingle(old(Snapshot()), key)
    {
      StepPreservesValid(Snapshot(), CancelSingle(key));
      if key !in pending {
        return;
      }
      var h := pending[key];
      if h < |requests| {
        requests := requests[h := requests[h].(result := requests[h].result.Cancel())];
      }
      pending := pending - {key};
    }

    method OnSubscribe(m: Messenger)
      requires Valid(Snapshot())
      modifies this
      ensures Valid(Snapshot())
      ensures Snapshot() == LocationServiceSpec.OnSubscribe(old(Snapshot()), m)
    {
      StepPreservesValid(Snapshot(), Subscribe(m));
      if m !in subscribers {
        subscribers := subscribers + [m];
      }
    }

    method OnUnsubscribe(m: Messenger)
      requires Valid(Snapshot())
      modifies this
      ensures Valid(Snapshot())
      ensures Snapshot() == LocationServiceSpec.OnUnsubscribe(old(Snapshot()), m)
    {
      StepPreservesValid(Snapshot(), Unsubscribe(m));
      subscribers := Without(subscribers, m);
    }
  }
}
