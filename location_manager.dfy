/**
 * An abstract model of the host's location manager as the standard adapter
 * sees it: a ranked list of providers with their enabled flags, and a
 * registration table from listeners (or pending intents) to the providers
 * they listen on and at what rate.
 */
module LocationManagerModel {
  import opened Wrappers

  datatype Accuracy = AccuracyFine | AccuracyCoarse | NoAccuracyRequirement
  datatype Power = PowerLow | PowerMedium | PowerHigh | NoPowerRequirement

  /** The two fields of a criteria object the adapter sets. */
  datatype Criteria = Criteria(accuracy: Accuracy, power: Power)

  /**
   * A provider as the host reports it. Which criteria it satisfies is the
   * host's knowledge, so it is given as data (`meets`).
   */
  datatype ProviderRecord = ProviderRecord(name: string, enabled: bool, meets: set<Criteria>)

  /**
   * The rate of one registration. ListenOnly stands for the sentinel pair
   * (Long.MAX_VALUE ms, Float.MAX_VALUE m): the listener never receives a fix
   * but is told when the provider is enabled or disabled.
   */
  datatype Rate = ListenOnly | Every(minTime: nat, minDistance: nat)

  /** The receivers a registration can belong to. */
  datatype Listener =
    | IntentListener(intent: nat)
    | CurrentProviderListener(request: nat)
    | ProviderEnabledListener(request: nat)

  type Table = map<Listener, map<string, Rate>>

  /** The registrations of one listener; a listener never registered has none. */
  function Regs(table: Table, l: Listener): map<string, Rate> {
    if l in table then table[l] else map[]
  }

  predicate Qualifies(p: ProviderRecord, c: Criteria, enabledOnly: bool) {
    c in p.meets && (enabledOnly ==> p.enabled)
  }

  /** Some provider of that name meets the criteria (and is enabled, if asked). */
  ghost predicate Offers(ps: seq<ProviderRecord>, name: string, c: Criteria, enabledOnly: bool) {
    exists i :: 0 <= i < |ps| && ps[i].name == name && Qualifies(ps[i], c, enabledOnly)
  }

  /** getProviders(criteria, enabledOnly): the names of the qualifying providers, in ranking order. */
  function GetProviders(c: Criteria, enabledOnly: bool, ps: seq<ProviderRecord>): (names: seq<string>)
    ensures forall n :: n in names <==> Offers(ps, n, c, enabledOnly)
    ensures |names| <= |ps|
  {
    if ps == [] then []
    else
      var rest := GetProviders(c, enabledOnly, ps[1..]);
      assert forall n :: Offers(ps[1..], n, c, enabledOnly) ==> Offers(ps, n, c, enabledOnly) by {
        forall n | Offers(ps[1..], n, c, enabledOnly) ensures Offers(ps, n, c, enabledOnly) {
          var i :| 0 <= i < |ps[1..]| && ps[1..][i].name == n && Qualifies(ps[1..][i], c, enabledOnly);
          assert ps[i + 1] == ps[1..][i];
        }
      }
      assert forall n :: Offers(ps, n, c, enabledOnly) && n != ps[0].name ==> Offers(ps[1..], n, c, enabledOnly) by {
        forall n | Offers(ps, n, c, enabledOnly) && n != ps[0].name ensures Offers(ps[1..], n, c, enabledOnly) {
          var i :| 0 <= i < |ps| && ps[i].name == n && Qualifies(ps[i], c, enabledOnly);
          assert i > 0 && ps[1..][i - 1] == ps[i];
        }
      }
      (if Qualifies(ps[0], c, enabledOnly) then [ps[0].name] else []) + rest
  }

  /**
   * getBestProvider(criteria, true): the host's ranking is opaque to the
   * adapter; here it is the order of the provider list, and the best provider
   * is the first enabled one that meets the criteria.
   */
  function BestProvider(c: Criteria, ps: seq<ProviderRecord>): (r: Option<string>)
    ensures r.Some? ==> Offers(ps, r.value, c, true)
    ensures r.None? <==> forall i :: 0 <= i < |ps| ==> !Qualifies(ps[i], c, true)
  {
    if ps == [] then None
    else if Qualifies(ps[0], c, true) then Some(ps[0].name)
    else
      var r := BestProvider(c, ps[1..]);
      assert r.Some? ==> Offers(ps, r.value, c, true) by {
        if r.Some? {
          var i :| 0 <= i < |ps[1..]| && ps[1..][i].name == r.value && Qualifies(ps[1..][i], c, true);
          assert ps[i + 1] == ps[1..][i];
        }
      }
      assert r.None? ==> forall i :: 0 <= i < |ps| ==> !Qualifies(ps[i], c, true) by {
        if r.None? {
          forall i | 0 <= i < |ps| ensures !Qualifies(ps[i], c, true) {
            if i > 0 { assert ps[i] == ps[1..][i - 1]; }
          }
        }
      }
      r
  }

  /** The provider list after the host sets the enabled flag of `name`. */
  function WithEnabled(ps: seq<ProviderRecord>, name: string, enabled: bool): (r: seq<ProviderRecord>)
    ensures |r| == |ps|
    ensures forall i :: 0 <= i < |ps| ==> r[i] == (if ps[i].name == name then ps[i].(enabled := enabled) else ps[i])
  {
    seq(|ps|, i requires 0 <= i < |ps| => if ps[i].name == name then ps[i].(enabled := enabled) else ps[i])
  }

  /** Enabling or disabling a provider never changes which providers meet a criteria regardless of state. */
  lemma {:induction false} AllProvidersIgnoreEnablement(c: Criteria, ps: seq<ProviderRecord>, name: string, enabled: bool)
    ensures GetProviders(c, false, WithEnabled(ps, name, enabled)) == GetProviders(c, false, ps)
    decreases |ps|
  {
    if ps != [] {
      assert WithEnabled(ps, name, enabled)[1..] == WithEnabled(ps[1..], name, enabled);
      AllProvidersIgnoreEnablement(c, ps[1..], name, enabled);
    }
  }

  /** The registrations of a listener after listen-only registrations on every name in `names`, in order. */
  function ListenOnlyAll(regs: map<string, Rate>, names: seq<string>): (r: map<string, Rate>)
    ensures r.Keys == regs.Keys + set n | n in names
    ensures forall n :: n in names ==> r[n] == ListenOnly
    ensures forall n :: n in regs && n !in names ==> r[n] == regs[n]
    decreases |names|
  {
    if names == [] then regs
    else ListenOnlyAll(regs, names[..|names| - 1])[names[|names| - 1] := ListenOnly]
  }

  /**
   * The host's location manager. Registering a listener on a provider it
   * already listens on replaces that registration's rate; removing a
   * listener drops all of its registrations.
   */
  class LocationManager {
    var providers: seq<ProviderRecord>
    var table: Table

    constructor (providers: seq<ProviderRecord>)
      ensures this.providers == providers && table == map[]
    {
      this.providers := providers;
      table := map[];
    }

    function RegistrationsOf(l: Listener): map<string, Rate>
      reads this
    {
      Regs(table, l)
    }

    /** requestLocationUpdates(provider, minTime, minDistance, listener). */
    method RequestUpdates(provider: string, rate: Rate, l: Listener)
      modifies this`table
      ensures RegistrationsOf(l) == old(RegistrationsOf(l))[provider := rate]
      ensures forall l' :: l' != l ==> RegistrationsOf(l') == old(RegistrationsOf(l'))
    {
      table := table[l := Regs(table, l)[provider := rate]];
    }

    /** removeUpdates(listener). */
    method RemoveUpdates(l: Listener)
      modifies this`table
      ensures RegistrationsOf(l) == map[]
      ensures forall l' :: l' != l ==> RegistrationsOf(l') == old(RegistrationsOf(l'))
    {
      table := table - {l};
    }

    /** The user or the system turns a provider on or off. */
    method SetProviderEnabled(name: string, enabled: bool)
      modifies this`providers
      ensures providers == WithEnabled(old(providers), name, enabled)
    {
      providers := WithEnabled(providers, name, enabled);
    }
  }
}
