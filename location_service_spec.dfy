/**
 * The location service's command handlers as a state machine over values:
 * the continuous-update memo and stopped flag, the table of in-flight
 * single-shot requests, the subscriber list, and append-only logs of what the
 * service asked of the location provider, recorded to analytics and sent to
 * clients.
 */
module LocationServiceSpec {
  import opened Wrappers
  import opened RequestOptions
  import opened PendingResults

  /** A client's reply messenger, compared by identity. */
  type Messenger = nat

  /** The policy read fresh for every command from the location settings. */
  datatype Policy = Policy(updatesEnabled: bool, backgroundAllowed: bool, appInForeground: bool)

  /** Continuous updates may run only when enabled, and in the background only when allowed. */
  predicate ContinuousUpdatesAllowed(p: Policy) {
    p.updatesEnabled && (p.backgroundAllowed || p.appInForeground)
  }

  /** The calls the service makes on its location provider. */
  datatype ProviderCall =
    | Connect
    | CancelRequests
    | RequestLocationUpdates(options: LocationRequestOptions)
    | RequestSingleLocation(options: LocationRequestOptions)

  datatype UpdateType = Continuous | Single

  /** One recordLocation(location, options, updateType) call on analytics. */
  datatype LocationRecord = LocationRecord(location: Location, options: Option<LocationRequestOptions>, updateType: UpdateType)

  datatype MessageKind = SingleRequestResult | NewLocationUpdate

  /** One message sent to a client: kind, destination, arg1 and the location (null when absent). */
  datatype Message = Message(what: MessageKind, to: Messenger, arg1: int, obj: Option<Location>)

  /** A single-shot request is identified by the client that asked and the id it chose. */
  datatype RequestKey = RequestKey(client: Messenger, requestId: int)

  /** A pending result the provider handed out, with what its result callback needs. */
  datatype SingleRequest = SingleRequest(key: RequestKey, options: LocationRequestOptions, result: PendingResult<Location>)

  datatype State = State(
    lastUpdateOptions: Option<LocationRequestOptions>,
    updatesStopped: bool,
    pending: map<RequestKey, nat>,        // request key -> index in `requests`
    requests: seq<SingleRequest>,         // every pending result the provider returned, in order
    subscribers: seq<Messenger>,
    calls: seq<ProviderCall>,
    records: seq<LocationRecord>,
    replies: seq<Message>)

  /** A fresh service: updates not stopped, no memo, nothing in flight. */
  const Initial: State := State(None, false, map[], [], [], [], [], [])

  predicate NoDuplicates(s: seq<Messenger>) {
    forall i, j :: 0 <= i < j < |s| ==> s[i] != s[j]
  }

  /**
   * The table holds exactly the requests still pending, each under its own
   * key, and no client is subscribed twice.
   */
  ghost predicate Valid(s: State) {
    && NoDuplicates(s.subscribers)
    && (forall k :: k in s.pending ==>
          s.pending[k] < |s.requests| && s.requests[s.pending[k]].key == k && s.requests[s.pending[k]].result.Pending?)
    && (forall h :: 0 <= h < |s.requests| && s.requests[h].result.Pending? ==>
          s.requests[h].key in s.pending && s.pending[s.requests[h].key] == h)
  }

  /** Connect, cancel the service's own intent, request updates with `options`, and remember them. */
  function Restart(s: State, options: LocationRequestOptions): State {
    s.(calls := s.calls + [Connect, CancelRequests, RequestLocationUpdates(options)],
       lastUpdateOptions := Some(options),
       updatesStopped := false)
  }

  /** ACTION_START_UPDATES with the options currently stored in the settings. */
  function OnStartUpdates(s: State, policy: Policy, options: LocationRequestOptions): State {
    if !ContinuousUpdatesAllowed(policy) then s
    else if !s.updatesStopped && s.lastUpdateOptions == Some(options) then s
    else Restart(s, options)
  }

  /** ACTION_STOP_UPDATES: cancel once, then remember that updates are stopped. */
  function OnStopUpdates(s: State): State {
    if s.updatesStopped then s
    else s.(calls := s.calls + [CancelRequests], updatesStopped := true)
  }

  /** A provider was enabled or disabled: re-request unconditionally, whatever the memo holds. */
  function OnProviderChanged(s: State, options: LocationRequestOptions): State {
    Restart(s, options)
  }

  /** The new-location message each subscriber receives, in subscription order. */
  function Broadcast(subscribers: seq<Messenger>, location: Location): (msgs: seq<Message>)
    ensures |msgs| == |subscribers|
    ensures forall msg :: msg in msgs ==> msg.what == NewLocationUpdate && msg.to in subscribers && msg.obj == Some(location)
    decreases |subscribers|
  {
    if subscribers == [] then []
    else Broadcast(subscribers[..|subscribers| - 1], location)
         + [Message(NewLocationUpdate, subscribers[|subscribers| - 1], 0, Some(location))]
  }

  /**
   * ACTION_LOCATION_UPDATE: request options carried by the update become the
   * memo; a location, if present and allowed, is recorded as continuous and
   * sent to every subscriber.
   */
  function OnLocationUpdate(s: State, policy: Policy, location: Option<Location>, carried: Option<LocationRequestOptions>): State {
    var s1 := if carried.Some? then s.(lastUpdateOptions := carried) else s;
    if location.None? || !ContinuousUpdatesAllowed(policy) then s1
    else s1.(records := s1.records + [LocationRecord(location.value, None, Continuous)],
             replies := s1.replies + Broadcast(s1.subscribers, location.value))
  }

  function NullReply(key: RequestKey): Message {
    Message(SingleRequestResult, key.client, key.requestId, None)
  }

  /**
   * MSG_REQUEST_SINGLE_LOCATION. Missing or unreadable options are answered
   * with a null result at once. Otherwise the provider is connected and asked
   * for a request; no request is answered with a null result, and a request
   * is kept under its key (cancelling one still pending under that key).
   */
  function OnRequestSingle(s: State, options: Option<LocationRequestOptions>, key: RequestKey, providerReturnsRequest: bool): State {
    if options.None? then s.(replies := s.replies + [NullReply(key)])
    else
      var s1 := s.(calls := s.calls + [Connect, RequestSingleLocation(options.value)]);
      if !providerReturnsRequest then s1.(replies := s1.replies + [NullReply(key)])
      else
        var requests := if key in s.pending && s.pending[key] < |s.requests|
          then s.requests[s.pending[key] := s.requests[s.pending[key]].(result := s.requests[s.pending[key]].result.Cancel())]
          else s.requests;
        s1.(requests := requests + [SingleRequest(key, options.value, Pending)],
            pending := s.pending[key := |requests|])
  }

  /**
   * The provider sets the result of the `handle`-th request. Only a pending
   * request takes it; its callback then leaves the table, replies to the
   * client and records the location as a single update.
   */
  function OnSingleResult(s: State, handle: nat, location: Location): State {
    if handle >= |s.requests| || s.requests[handle].result.IsDone() then s
    else
      var r := s.requests[handle];
      s.(requests := s.requests[handle := r.(result := Completed(location))],
         pending := if r.key in s.pending && s.pending[r.key] == handle then s.pending - {r.key} else s.pending,
         replies := s.replies + [Message(SingleRequestResult, r.key.client, r.key.requestId, Some(location))],
         records := s.records + [LocationRecord(location, Some(r.options), Single)])
  }

  /** MSG_CANCEL_SINGLE_LOCATION_REQUEST: cancel the request kept under the key, if any. */
  function OnCancelSingle(s: State, key: RequestKey): State {
    if key !in s.pending then s
    else
      var h := s.pending[key];
      s.(requests := if h < |s.requests| then s.requests[h := s.requests[h].(result := s.requests[h].result.Cancel())] else s.requests,
         pending := s.pending - {key})
  }

  /** The list without `m`. */
  function Without(subscribers: seq<Messenger>, m: Messenger): (r: seq<Messenger>)
    ensures forall x :: x in r <==> x in subscribers && x != m
    ensures NoDuplicates(subscribers) ==> NoDuplicates(r)
    decreases |subscribers|
  {
    if subscribers == [] then []
    else
      var rest := Without(subscribers[1..], m);
      assert forall x :: x in subscribers[1..] ==> x in subscribers;
      if subscribers[0] == m then rest
      else
        assert NoDuplicates(subscribers) ==> subscribers[0] !in subscribers[1..];
        [subscribers[0]] + rest
  }

  /** MSG_SUBSCRIBE_UPDATES. */
  function OnSubscribe(s: State, m: Messenger): State {
    if m in s.subscribers then s else s.(subscribers := s.subscribers + [m])
  }

  /** MSG_UNSUBSCRIBE_UPDATES. */
  function OnUnsubscribe(s: State, m: Messenger): State {
    s.(subscribers := Without(s.subscribers, m))
  }

  /** Every command and event the service handles, one at a time. */
  datatype Command =
    | StartUpdates(policy: Policy, options: LocationRequestOptions)
    | StopUpdates
    | ProviderChanged(options: LocationRequestOptions)
    | LocationUpdate(policy: Policy, location: Option<Location>, carried: Option<LocationRequestOptions>)
    | RequestSingle(requestOptions: Option<LocationRequestOptions>, key: RequestKey, providerReturnsRequest: bool)
    | SingleResult(handle: nat, result: Location)
    | CancelSingle(cancelKey: RequestKey)
    | Subscribe(subscriber: Messenger)
    | Unsubscribe(unsubscriber: Messenger)

  function Step(s: State, c: Command): State {
    match c
    case StartUpdates(p, o) => OnStartUpdates(s, p, o)
    case StopUpdates => OnStopUpdates(s)
    case ProviderChanged(o) => OnProviderChanged(s, o)
    case LocationUpdate(p, l, o) => OnLocationUpdate(s, p, l, o)
    case RequestSingle(o, k, b) => OnRequestSingle(s, o, k, b)
    case SingleResult(h, l) => OnSingleResult(s, h, l)
    case CancelSingle(k) => OnCancelSingle(s, k)
    case Subscribe(m) => OnSubscribe(s, m)
    case Unsubscribe(m) => OnUnsubscribe(s, m)
  }

  function Run(s: State, cmds: seq<Command>): State
    decreases |cmds|
  {
    if cmds == [] then s else Run(Step(s, cmds[0]), cmds[1..])
  }

  /** How many times `x` occurs in `s`. */
  function Count<T(==)>(s: seq<T>, x: T): nat
    decreases |s|
  {
    if s == [] then 0 else (if s[0] == x then 1 else 0) + Count(s[1..], x)
  }

  lemma {:induction false} CountAppend<T>(a: seq<T>, b: seq<T>, x: T)
    ensures Count(a + b, x) == Count(a, x) + Count(b, x)
    decreases |a|
  {
    if a != [] {
      assert (a + b)[1..] == a[1..] + b;
      CountAppend(a[1..], b, x);
    } else {
      assert a + b == b;
    }
  }

  // ---------------------------------------------------------------------
  // Continuous updates

  /** A second start with the same policy and options changes nothing: redundant starts are ignored. */
  lemma StartUpdatesIdempotent(s: State, policy: Policy, options: LocationRequestOptions)
    ensures OnStartUpdates(OnStartUpdates(s, policy, options), policy, options) == OnStartUpdates(s, policy, options)
  {
  }

  /**
   * A start that is not ignored makes exactly one connect, one cancel and one
   * request with the current options; a start with other options than the
   * memo is never ignored while allowed.
   */
  lemma {:induction false} StartUpdatesCallCounts(s: State, policy: Policy, options: LocationRequestOptions, c: ProviderCall)
    requires ContinuousUpdatesAllowed(policy)
    requires s.updatesStopped || s.lastUpdateOptions != Some(options)
    ensures Count(OnStartUpdates(s, policy, options).calls, c)
         == Count(s.calls, c) + Count([Connect, CancelRequests, RequestLocationUpdates(options)], c)
    ensures OnStartUpdates(s, policy, options).lastUpdateOptions == Some(options)
  {
    CountAppend(s.calls, [Connect, CancelRequests, RequestLocationUpdates(options)], c);
  }

  /** A second stop makes no call: stopping is idempotent. */
  lemma StopUpdatesIdempotent(s: State)
    ensures OnStopUpdates(OnStopUpdates(s)) == OnStopUpdates(s)
    ensures Count(OnStopUpdates(OnStopUpdates(s)).calls, CancelRequests) <= Count(s.calls, CancelRequests) + 1
  {
    CountAppend(s.calls, [CancelRequests], CancelRequests);
  }

  /** Stopping clears the effect of the memo: start, stop, start with the same options requests updates twice. */
  lemma {:induction false} StopThenStartRequestsAgain(s: State, policy: Policy, options: LocationRequestOptions)
    requires ContinuousUpdatesAllowed(policy)
    requires s.updatesStopped || s.lastUpdateOptions != Some(options)
    ensures var t := OnStartUpdates(OnStopUpdates(OnStartUpdates(s, policy, options)), policy, options);
      Count(t.calls, RequestLocationUpdates(options)) == Count(s.calls, RequestLocationUpdates(options)) + 2
  {
    var r := RequestLocationUpdates(options);
    var s1 := OnStartUpdates(s, policy, options);
    var s2 := OnStopUpdates(s1);
    StartUpdatesCallCounts(s, policy, options, r);
    assert s2.calls == s1.calls + [CancelRequests];
    CountAppend(s1.calls, [CancelRequests], r);
    StartUpdatesCallCounts(s2, policy, options, r);
    assert Count([CancelRequests], r) == 0 by { assert [CancelRequests][1..] == []; }
    assert Count([Connect, CancelRequests, r], r) == 1 by {
      assert [Connect, CancelRequests, r][1..] == [CancelRequests, r];
      assert [CancelRequests, r][1..] == [r];
      assert [r][1..] == [];
      assert Count([r], r) == 1;
      assert Count([CancelRequests, r], r) == 1;
    }
  }

  /** A provider change restarts updates whatever the memo and the stopped flag hold. */
  lemma ProviderChangeForcesRestart(s: State, options: LocationRequestOptions)
    ensures OnProviderChanged(s, options).calls == s.calls + [Connect, CancelRequests, RequestLocationUpdates(options)]
    ensures OnProviderChanged(s, options).lastUpdateOptions == Some(options)
    ensures !OnProviderChanged(s, options).updatesStopped
  {
  }

  /** Options carried by an update suppress the next start with equal options, unless updates were stopped. */
  lemma MemoFromUpdateSuppressesStart(s: State, p: Policy, location: Option<Location>, policy: Policy, options: LocationRequestOptions)
    requires !s.updatesStopped
    ensures OnStartUpdates(OnLocationUpdate(s, p, location, Some(options)), policy, options).calls == s.calls
  {
  }

  /** A fix is recorded once, as continuous with no options, exactly when it is present and allowed. */
  lemma ContinuousUpdateRecorded(s: State, policy: Policy, location: Option<Location>, carried: Option<LocationRequestOptions>)
    ensures var t := OnLocationUpdate(s, policy, location, carried);
      && (location.Some? && ContinuousUpdatesAllowed(policy) ==> t.records == s.records + [LocationRecord(location.value, None, Continuous)])
      && (location.None? || !ContinuousUpdatesAllowed(policy) ==> t.records == s.records && t.replies == s.replies)
      && t.calls == s.calls
  {
  }

  /** Every subscriber receives exactly one copy of a broadcast fix, and no one else receives any. */
  lemma {:induction false} BroadcastReachesEachOnce(subscribers: seq<Messenger>, location: Location, m: Messenger)
    requires NoDuplicates(subscribers)
    ensures Count(Broadcast(subscribers, location), Message(NewLocationUpdate, m, 0, Some(location)))
         == if m in subscribers then 1 else 0
    decreases |subscribers|
  {
    if subscribers != [] {
      var front := subscribers[..|subscribers| - 1];
      var last := subscribers[|subscribers| - 1];
      var msg := Message(NewLocationUpdate, m, 0, Some(location));
      assert subscribers == front + [last];
      BroadcastReachesEachOnce(front, location, m);
      CountAppend(Broadcast(front, location), [Message(NewLocationUpdate, last, 0, Some(location))], msg);
      assert last !in front;
    }
  }

  /** After unsubscribing, a client receives none of the following broadcasts; others still do. */
  lemma UnsubscribedReceivesNothing(s: State, m: Messenger, policy: Policy, location: Location, other: Messenger)
    requires Valid(s)
    requires ContinuousUpdatesAllowed(policy)
    ensures var t := OnLocationUpdate(OnUnsubscribe(s, m), policy, Some(location), None);
      && Count(t.replies, Message(NewLocationUpdate, m, 0, Some(location))) == Count(s.replies, Message(NewLocationUpdate, m, 0, Some(location)))
      && (other in s.subscribers && other != m ==>
            Count(t.replies, Message(NewLocationUpdate, other, 0, Some(location))) == Count(s.replies, Message(NewLocationUpdate, other, 0, Some(location))) + 1)
  {
    var u := OnUnsubscribe(s, m);
    var b := Broadcast(u.subscribers, location);
    CountAppend(s.replies, b, Message(NewLocationUpdate, m, 0, Some(location)));
    CountAppend(s.replies, b, Message(NewLocationUpdate, other, 0, Some(location)));
    BroadcastReachesEachOnce(u.subscribers, location, m);
    BroadcastReachesEachOnce(u.subscribers, location, other);
  }

  // ---------------------------------------------------------------------
  // Single-shot requests

  /** A stored request is the only pending one under its key; one it replaces is canceled. */
  lemma RequestSinglePreservesValid(s: State, options: Option<LocationRequestOptions>, key: RequestKey, providerReturnsRequest: bool)
    requires Valid(s)
    ensures Valid(OnRequestSingle(s, options, key, providerReturnsRequest))
  {
    if options.Some? && providerReturnsRequest {
      var t := OnRequestSingle(s, options, key, providerReturnsRequest);
      forall h | 0 <= h < |t.requests| && t.requests[h].result.Pending?
        ensures t.requests[h].key in t.pending && t.pending[t.requests[h].key] == h
      {
        if h < |s.requests| {
          assert s.requests[h].result.Pending?;
        }
      }
    }
  }

  /**
   * A request the provider accepts connects and asks once, replies nothing
   * yet, is stored pending under its key, and cancels the request it
   * replaces; every other key keeps its entry.
   */
  lemma RequestSingleStoresAndReplaces(s: State, options: LocationRequestOptions, key: RequestKey)
    requires Valid(s)
    ensures var t := OnRequestSingle(s, Some(options), key, true);
      && t.calls == s.calls + [Connect, RequestSingleLocation(options)]
      && t.replies == s.replies && t.records == s.records
      && key in t.pending && t.requests[t.pending[key]] == SingleRequest(key, options, Pending)
      && (key in s.pending ==> t.requests[s.pending[key]].result == Canceled)
      && (forall k :: k in s.pending && k != key ==>
            (k in t.pending && t.pending[k] == s.pending[k] && t.requests[t.pending[k]] == s.requests[s.pending[k]]))
  {
  }

  /** A completed request leaves the table. */
  lemma SingleResultPreservesValid(s: State, handle: nat, location: Location)
    requires Valid(s)
    ensures Valid(OnSingleResult(s, handle, location))
  {
  }

  /** A canceled request leaves the table. */
  lemma CancelSinglePreservesValid(s: State, key: RequestKey)
    requires Valid(s)
    ensures Valid(OnCancelSingle(s, key))
  {
    if key in s.pending {
      var t := OnCancelSingle(s, key);
      forall h | 0 <= h < |t.requests| && t.requests[h].result.Pending?
        ensures t.requests[h].key in t.pending && t.pending[t.requests[h].key] == h
      {
        assert s.requests[h].result.Pending?;
      }
    }
  }

  /** Every command keeps the table and the subscriber list consistent. */
  lemma StepPreservesValid(s: State, c: Command)
    requires Valid(s)
    ensures Valid(Step(s, c))
  {
    match c {
      case RequestSingle(o, k, b) => RequestSinglePreservesValid(s, o, k, b);
      case SingleResult(h, l) => SingleResultPreservesValid(s, h, l);
      case CancelSingle(k) => CancelSinglePreservesValid(s, k);
      case Subscribe(m) => assert NoDuplicates(Step(s, c).subscribers);
      case _ =>
    }
  }

  lemma {:induction false} RunPreservesValid(s: State, cmds: seq<Command>)
    requires Valid(s)
    ensures Valid(Run(s, cmds))
    decreases |cmds|
  {
    if cmds != [] {
      StepPreservesValid(s, cmds[0]);
      RunPreservesValid(Step(s, cmds[0]), cmds[1..]);
    }
  }

  /** A request that is done is never touched again by any command. */
  lemma StepKeepsDoneRequest(s: State, c: Command, h: nat)
    requires h < |s.requests| && s.requests[h].result.IsDone()
    ensures h < |Step(s, c).requests| && Step(s, c).requests[h] == s.requests[h]
  {
  }

  /** The commands other than results for the `h`-th request. */
  function DropResultsFor(cmds: seq<Command>, h: nat): (r: seq<Command>)
    ensures |r| <= |cmds|
    decreases |cmds|
  {
    if cmds == [] then []
    else if cmds[0].SingleResult? && cmds[0].handle == h then DropResultsFor(cmds[1..], h)
    else [cmds[0]] + DropResultsFor(cmds[1..], h)
  }

  /**
   * Once a request is done (completed or canceled), results arriving for it
   * later are discarded: running any commands gives the same state as running
   * them without those results, and the request stays as it was.
   */
  lemma {:induction false} DoneRequestIgnoresLateResults(s: State, h: nat, cmds: seq<Command>)
    requires h < |s.requests| && s.requests[h].result.IsDone()
    ensures Run(s, cmds) == Run(s, DropResultsFor(cmds, h))
    ensures h < |Run(s, cmds).requests| && Run(s, cmds).requests[h] == s.requests[h]
    decreases |cmds|
  {
    if cmds != [] {
      var c := cmds[0];
      StepKeepsDoneRequest(s, c, h);
      DoneRequestIgnoresLateResults(Step(s, c), h, cmds[1..]);
      if c.SingleResult? && c.handle == h {
        assert Step(s, c) == s;
      } else {
        assert DropResultsFor(cmds, h) == [c] + DropResultsFor(cmds[1..], h);
        assert ([c] + DropResultsFor(cmds[1..], h))[1..] == DropResultsFor(cmds[1..], h);
      }
    }
  }

  /** Cancelling a pending request marks it canceled and removes it; a later result then sends and records nothing. */
  lemma CancelThenResultSendsNothing(s: State, key: RequestKey, location: Location)
    requires Valid(s) && key in s.pending
    ensures var h := s.pending[key];
      var t := OnSingleResult(OnCancelSingle(s, key), h, location);
      && t.requests[h].result == Canceled
      && key !in t.pending
      && t.replies == s.replies
      && t.records == s.records
  {
  }

  /**
   * The result of a pending request is answered exactly once, to the client
   * that asked, under its id, with the location, and recorded as a single
   * update with the request's options.
   */
  lemma ResultRepliesOnce(s: State, key: RequestKey, location: Location)
    requires Valid(s) && key in s.pending
    ensures var h := s.pending[key];
      var t := OnSingleResult(s, h, location);
      && t.replies == s.replies + [Message(SingleRequestResult, key.client, key.requestId, Some(location))]
      && t.records == s.records + [LocationRecord(location, Some(s.requests[h].options), Single)]
      && key !in t.pending
      && t.requests[h].result == Completed(location)
      && OnSingleResult(t, h, location) == t
  {
  }

  /** A request without options, or for which the provider returns nothing, is answered at once with one null result. */
  lemma FailedRequestAnsweredAtOnce(s: State, options: Option<LocationRequestOptions>, key: RequestKey, providerReturnsRequest: bool)
    requires options.None? || !providerReturnsRequest
    ensures var t := OnRequestSingle(s, options, key, providerReturnsRequest);
      && t.replies == s.replies + [Message(SingleRequestResult, key.client, key.requestId, None)]
      && t.pending == s.pending
      && (options.None? ==> t.calls == s.calls)
  {
  }
}
