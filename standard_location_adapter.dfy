/**
 * The location adapter for the standard Android backend: it maps request
 * options to criteria, picks the best provider, registers pending intents for
 * continuous updates, and runs single-shot requests that re-arm themselves
 * as providers come and go.
 */
module StandardAdapter {
  import opened Wrappers
  import opened RequestOptions
  import opened LocationManagerModel
  import opened PendingResults

  /** The name of the passive provider, the only one a no-power request may use. */
  const PassiveProvider: string := "passive"

  /** createCriteria: the accuracy and power requirement a priority asks for. */
  function CreateCriteria(priority: Priority): (c: Criteria)
    ensures c.accuracy == AccuracyFine <==> priority == HighAccuracy
    ensures c.accuracy == AccuracyCoarse <==> priority == BalancedPowerAccuracy
    ensures c.power == PowerHigh <==> priority == HighAccuracy
    ensures c.power == PowerMedium <==> priority == BalancedPowerAccuracy
    ensures c.power == PowerLow <==> priority == LowPower || priority == NoPower
    ensures c.power == PowerLow <==> c.accuracy == NoAccuracyRequirement
  {
    match priority
    case HighAccuracy => Criteria(AccuracyFine, PowerHigh)
    case BalancedPowerAccuracy => Criteria(AccuracyCoarse, PowerMedium)
    case LowPower => Criteria(NoAccuracyRequirement, PowerLow)
    case NoPower => Criteria(NoAccuracyRequirement, PowerLow)
  }

  /** Two priorities give the same criteria exactly when they are equal or both low/no power. */
  lemma CriteriaSeparatesPriorities(a: Priority, b: Priority)
    ensures CreateCriteria(a) == CreateCriteria(b) <==> a == b || (a in {LowPower, NoPower} && b in {LowPower, NoPower})
  {
  }

  /**
   * getBestProvider: a no-power request takes the passive provider only when
   * it is enabled and meets the criteria, and otherwise nothing; every other
   * priority asks the host for its best enabled provider.
   */
  function GetBestProvider(c: Criteria, priority: Priority, ps: seq<ProviderRecord>): (r: Option<string>)
    ensures r.Some? ==> Offers(ps, r.value, c, true)
    ensures priority == NoPower ==> (r == Some(PassiveProvider) <==> Offers(ps, PassiveProvider, c, true))
    ensures priority == NoPower ==> (r.None? <==> !Offers(ps, PassiveProvider, c, true))
    ensures priority != NoPower ==> (r.None? <==> forall i :: 0 <= i < |ps| ==> !Qualifies(ps[i], c, true))
  {
    if priority == NoPower then
      var available := GetProviders(c, true, ps);
      if PassiveProvider in available then Some(PassiveProvider) else None
    else
      BestProvider(c, ps)
  }

  /** A no-power request never selects any provider other than the passive one. */
  lemma NoPowerNeverSelectsActive(c: Criteria, ps: seq<ProviderRecord>, name: string)
    requires name != PassiveProvider
    ensures GetBestProvider(c, NoPower, ps) != Some(name)
  {
  }

  /**
   * The registrations a pending intent holds after requestLocationUpdates,
   * given those it held before: listen-only on every provider that meets the
   * criteria, enabled or not, then the real rate on the best provider when
   * there is a non-empty one.
   */
  function IntentRegistrations(before: map<string, Rate>, options: LocationRequestOptions, ps: seq<ProviderRecord>): (r: map<string, Rate>)
    ensures var c := CreateCriteria(options.priority);
      var best := GetBestProvider(c, options.priority, ps);
      && (forall n :: n in r <==> n in before || Offers(ps, n, c, false) || (best == Some(n) && n != ""))
      && (forall n :: Offers(ps, n, c, false) && !(best == Some(n) && n != "") ==> r[n] == ListenOnly)
      && (best.Some? && best.value != "" ==> r[best.value] == Every(options.minTime, options.minDistance))
      && (forall n :: n in before && !Offers(ps, n, c, false) && !(best == Some(n) && n != "") ==> r[n] == before[n])
  {
    var c := CreateCriteria(options.priority);
    var listening := ListenOnlyAll(before, GetProviders(c, false, ps));
    var best := GetBestProvider(c, options.priority, ps);
    if best.Some? && best.value != "" then listening[best.value := Every(options.minTime, options.minDistance)]
    else listening
  }

  /** When the intent held only listen-only registrations before, its real-rate registration, if any, is on an enabled provider meeting the criteria. */
  lemma {:induction false} RealRegistrationIsOnBestProvider(before: map<string, Rate>, options: LocationRequestOptions, ps: seq<ProviderRecord>, n: string)
    requires forall m :: m in before ==> before[m] == ListenOnly
    requires n in IntentRegistrations(before, options, ps)
    requires IntentRegistrations(before, options, ps)[n].Every?
    ensures Offers(ps, n, CreateCriteria(options.priority), true)
    ensures IntentRegistrations(before, options, ps)[n] == Every(options.minTime, options.minDistance)
  {
  }

  /** Registers `l` listen-only on every provider in `names`, one after another. */
  method ListenOnAll(manager: LocationManager, names: seq<string>, l: Listener)
    modifies manager`table
    ensures manager.RegistrationsOf(l) == ListenOnlyAll(old(manager.RegistrationsOf(l)), names)
    ensures forall l' :: l' != l ==> manager.RegistrationsOf(l') == old(manager.RegistrationsOf(l'))
  {
    var i := 0;
    while i < |names|
      invariant 0 <= i <= |names|
      invariant manager.RegistrationsOf(l) == ListenOnlyAll(old(manager.RegistrationsOf(l)), names[..i])
      invariant forall l' :: l' != l ==> manager.RegistrationsOf(l') == old(manager.RegistrationsOf(l'))
    {
      manager.RequestUpdates(names[i], ListenOnly, l);
      assert names[..i + 1][..i] == names[..i];
      i := i + 1;
    }
    assert names[..i] == names;
  }

  class StandardLocationAdapter {
    const manager: LocationManager

    constructor (manager: LocationManager)
      ensures this.manager == manager
    {
      this.manager := manager;
    }

    /** requestLocationUpdates(options, intent): continuous updates delivered to a pending intent. */
    method RequestLocationUpdates(options: LocationRequestOptions, intent: nat)
      modifies manager`table
      ensures manager.RegistrationsOf(IntentListener(intent))
           == IntentRegistrations(old(manager.RegistrationsOf(IntentListener(intent))), options, manager.providers)
      ensures forall l :: l != IntentListener(intent) ==> manager.RegistrationsOf(l) == old(manager.RegistrationsOf(l))
    {
      var criteria := CreateCriteria(options.priority);
      var providers := GetProviders(criteria, false, manager.providers);
      ListenOnAll(manager, providers, IntentListener(intent));
      var bestProvider := GetBestProvider(criteria, options.priority, manager.providers);
      if bestProvider.Some? && bestProvider.value != "" {
        manager.RequestUpdates(bestProvider.value, Every(options.minTime, options.minDistance), IntentListener(intent));
      }
    }

    /** connect: the standard backend needs no connection, so it always succeeds. */
    method Connect() returns (connected: bool)
      ensures connected
    {
      connected := true;
    }

    /** disconnect: nothing to release. */
    method Disconnect()
      ensures unchanged(manager)
    {
    }

    /** cancelLocationUpdates(intent): drops every registration the intent holds. */
    method CancelLocationUpdates(intent: nat)
      modifies manager`table
      ensures manager.RegistrationsOf(IntentListener(intent)) == map[]
      ensures forall l :: l != IntentListener(intent) ==> manager.RegistrationsOf(l) == old(manager.RegistrationsOf(l))
    {
      manager.RemoveUpdates(IntentListener(intent));
    }

    /**
     * requestSingleLocation(options). The two listener objects the request
     * allocates are fresh, so they hold no registrations yet: `key` names them.
     */
    method RequestSingleLocation(options: LocationRequestOptions, key: nat) returns (request: SingleLocationRequest)
      requires manager.RegistrationsOf(CurrentProviderListener(key)) == map[]
      requires manager.RegistrationsOf(ProviderEnabledListener(key)) == map[]
      modifies manager`table
      ensures fresh(request) && request.Valid()
      ensures request.manager == manager && request.options == options && request.key == key
      ensures request.result == Pending
      ensures request.currentProvider == GetBestProvider(CreateCriteria(options.priority), options.priority, manager.providers)
      ensures forall l :: l != CurrentProviderListener(key) && l != ProviderEnabledListener(key)
                ==> manager.RegistrationsOf(l) == old(manager.RegistrationsOf(l))
    {
      request := new SingleLocationRequest(manager, options, key);
    }
  }

  /**
   * One single-shot request. It listens on its current best provider with
   * rate (0, 0) through one listener, and (unless the priority is no-power)
   * listen-only on every provider meeting its criteria through a second
   * listener, so that it hears of providers being enabled.
   */
  class SingleLocationRequest {
    const manager: LocationManager
    const options: LocationRequestOptions
    const criteria: Criteria
    /** Names this request's two listener objects in the registration table. */
    const key: nat
    var currentProvider: Option<string>
    var result: PendingResult<Location>

    /** The registration the current-provider listener holds: at most one, on the current provider, while not done. */
    function CurrentRegistrations(): (r: map<string, Rate>)
      reads this
      ensures |r| <= 1
      ensures r != map[] <==> !result.IsDone() && currentProvider.Some?
    {
      if !result.IsDone() && currentProvider.Some? then map[currentProvider.value := Every(0, 0)] else map[]
    }

    /** The registrations the provider-enabled listener holds: listen-only on every matching provider, while not done. */
    ghost function EnabledRegistrations(): map<string, Rate>
      reads this, manager
    {
      if !result.IsDone() && options.priority != NoPower
      then ListenOnlyAll(map[], GetProviders(criteria, false, manager.providers))
      else map[]
    }

    ghost predicate Valid()
      reads this, manager
    {
      && criteria == CreateCriteria(options.priority)
      && manager.RegistrationsOf(CurrentProviderListener(key)) == CurrentRegistrations()
      && manager.RegistrationsOf(ProviderEnabledListener(key)) == EnabledRegistrations()
    }

    constructor (manager: LocationManager, options: LocationRequestOptions, key: nat)
      requires manager.RegistrationsOf(CurrentProviderListener(key)) == map[]
      requires manager.RegistrationsOf(ProviderEnabledListener(key)) == map[]
      modifies manager`table
      ensures Valid()
      ensures this.manager == manager && this.options == options && this.key == key
      ensures result == Pending
      ensures currentProvider == GetBestProvider(criteria, options.priority, manager.providers)
      ensures forall l :: l != CurrentProviderListener(key) && l != ProviderEnabledListener(key)
                ==> manager.RegistrationsOf(l) == old(manager.RegistrationsOf(l))
    {
      this.manager := manager;
      this.options := options;
      this.criteria := CreateCriteria(options.priority);
      this.key := key;
      currentProvider := None;
      result := Pending;
      new;
      if options.priority != NoPower {
        ListenForProvidersEnabled();
      }
      ListenForLocationChanges();
    }

    /**
     * listenForLocationChanges: drop the current-provider registration if a
     * provider was set, take a fresh best provider, and listen on it at
     * (0, 0) when there is one.
     */
    method ListenForLocationChanges()
      requires result == Pending
      requires currentProvider.None? ==> manager.RegistrationsOf(CurrentProviderListener(key)) == map[]
      modifies this`currentProvider, manager`table
      ensures currentProvider == GetBestProvider(criteria, options.priority, manager.providers)
      ensures manager.RegistrationsOf(CurrentProviderListener(key)) == CurrentRegistrations()
      ensures forall l :: l != CurrentProviderListener(key) ==> manager.RegistrationsOf(l) == old(manager.RegistrationsOf(l))
    {
      if currentProvider.Some? {
        manager.RemoveUpdates(CurrentProviderListener(key));
      }
      var bestProvider := GetBestProvider(criteria, options.priority, manager.providers);
      currentProvider := bestProvider;
      if bestProvider.Some? {
        manager.RequestUpdates(bestProvider.value, Every(0, 0), CurrentProviderListener(key));
      }
    }

    /** listenForProvidersEnabled: listen-only on every provider meeting the criteria, enabled or not. */
    method ListenForProvidersEnabled()
      modifies manager`table
      ensures manager.RegistrationsOf(ProviderEnabledListener(key))
           == ListenOnlyAll(old(manager.RegistrationsOf(ProviderEnabledListener(key))), GetProviders(criteria, false, manager.providers))
      ensures forall l :: l != ProviderEnabledListener(key) ==> manager.RegistrationsOf(l) == old(manager.RegistrationsOf(l))
    {
      var providers := GetProviders(criteria, false, manager.providers);
      ListenOnAll(manager, providers, ProviderEnabledListener(key));
    }

    /** stopUpdates: remove both listeners. */
    method StopUpdates()
      modifies manager`table
      ensures manager.RegistrationsOf(CurrentProviderListener(key)) == map[]
      ensures manager.RegistrationsOf(ProviderEnabledListener(key)) == map[]
      ensures forall l :: l != CurrentProviderListener(key) && l != ProviderEnabledListener(key)
                ==> manager.RegistrationsOf(l) == old(manager.RegistrationsOf(l))
    {
      manager.RemoveUpdates(CurrentProviderListener(key));
      manager.RemoveUpdates(ProviderEnabledListener(key));
    }

    /** The current-provider listener's onLocationChanged: stop listening, then set the result. */
    method OnLocationChanged(location: Location)
      requires Valid()
      modifies this`result, manager`table
      ensures Valid()
      ensures result == old(result).SetResult(location)
      ensures manager.RegistrationsOf(CurrentProviderListener(key)) == map[]
      ensures manager.RegistrationsOf(ProviderEnabledListener(key)) == map[]
      ensures forall l :: l != CurrentProviderListener(key) && l != ProviderEnabledListener(key)
                ==> manager.RegistrationsOf(l) == old(manager.RegistrationsOf(l))
    {
      StopUpdates();
      result := result.SetResult(location);
    }

    /** The current-provider listener's onProviderDisabled: re-select while the request is not done. */
    method OnProviderDisabled(provider: string)
      requires Valid()
      modifies this`currentProvider, manager`table
      ensures Valid()
      ensures old(result.IsDone()) ==> currentProvider == old(currentProvider)
      ensures !old(result.IsDone()) ==> currentProvider == GetBestProvider(criteria, options.priority, manager.providers)
      ensures forall l :: l != CurrentProviderListener(key) ==> manager.RegistrationsOf(l) == old(manager.RegistrationsOf(l))
    {
      if !result.IsDone() {
        ListenForLocationChanges();
      }
    }

    /**
     * The provider-enabled listener's onProviderEnabled: while the request is
     * not done, re-select only when the best provider exists and differs from
     * the current one.
     */
    method OnProviderEnabled(provider: string)
      requires Valid()
      modifies this`currentProvider, manager`table
      ensures Valid()
      ensures var best := GetBestProvider(criteria, options.priority, manager.providers);
        currentProvider == if !old(result.IsDone()) && best.Some? && best != old(currentProvider) then best else old(currentProvider)
      ensures forall l :: l != CurrentProviderListener(key) ==> manager.RegistrationsOf(l) == old(manager.RegistrationsOf(l))
    {
      if !result.IsDone() {
        var bestProvider := GetBestProvider(criteria, options.priority, manager.providers);
        if bestProvider.Some? && bestProvider != currentProvider {
          ListenForLocationChanges();
        }
      }
    }

    /** cancel, with onCancel stopping the updates. */
    method Cancel()
      requires Valid()
      modifies this`result, manager`table
      ensures Valid()
      ensures result == old(result).Cancel()
      ensures manager.RegistrationsOf(CurrentProviderListener(key)) == map[]
      ensures manager.RegistrationsOf(ProviderEnabledListener(key)) == map[]
      ensures forall l :: l != CurrentProviderListener(key) && l != ProviderEnabledListener(key)
                ==> manager.RegistrationsOf(l) == old(manager.RegistrationsOf(l))
    {
      if !result.IsDone() {
        result := Canceled;
        StopUpdates();
      }
    }
  }

  /**
   * The host disables a provider and tells the request's current-provider
   * listener if it listens there, that is, when the request is not done and
   * uses that provider. Only then does the request re-select, and then it no
   * longer uses the disabled provider.
   */
  method DisableProvider(request: SingleLocationRequest, name: string)
    requires request.Valid()
    modifies request.manager`providers, request.manager`table, request`currentProvider
    ensures request.Valid()
    ensures request.manager.providers == WithEnabled(old(request.manager.providers), name, false)
    ensures request.currentProvider
         == if old(!request.result.IsDone() && request.currentProvider == Some(name))
            then GetBestProvider(request.criteria, request.options.priority, request.manager.providers)
            else old(request.currentProvider)
    ensures old(!request.result.IsDone() && request.currentProvider == Some(name)) ==> request.currentProvider != Some(name)
    ensures forall l :: l != CurrentProviderListener(request.key)
              ==> request.manager.RegistrationsOf(l) == old(request.manager.RegistrationsOf(l))
  {
    var listening := name in request.manager.RegistrationsOf(CurrentProviderListener(request.key));
    AllProvidersIgnoreEnablement(request.criteria, request.manager.providers, name, false);
    request.manager.SetProviderEnabled(name, false);
    if listening {
      request.OnProviderDisabled(name);
    }
  }

  /**
   * The host enables a provider and tells the request's provider-enabled
   * listener if it listens there, that is, when the request is not done, is
   * not no-power and the provider meets its criteria. Only then may the
   * request re-select: when the best provider exists and differs from the
   * current one.
   */
  method EnableProvider(request: SingleLocationRequest, name: string)
    requires request.Valid()
    modifies request.manager`providers, request.manager`table, request`currentProvider
    ensures request.Valid()
    ensures request.manager.providers == WithEnabled(old(request.manager.providers), name, true)
    ensures
      var notified := old(!request.result.IsDone() && request.options.priority != NoPower
                          && Offers(request.manager.providers, name, request.criteria, false));
      var best := GetBestProvider(request.criteria, request.options.priority, request.manager.providers);
      request.currentProvider == if notified && best.Some? && best != old(request.currentProvider) then best else old(request.currentProvider)
    ensures forall l :: l != CurrentProviderListener(request.key)
              ==> request.manager.RegistrationsOf(l) == old(request.manager.RegistrationsOf(l))
  {
    var listening := name in request.manager.RegistrationsOf(ProviderEnabledListener(request.key));
    AllProvidersIgnoreEnablement(request.criteria, request.manager.providers, name, true);
    request.manager.SetProviderEnabled(name, true);
    if listening {
      request.OnProviderEnabled(name);
    }
  }
}
