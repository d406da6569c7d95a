/** The per-service provider registry of Vault: a TreeMap from priority key to
    provider, plus an optional pinned provider that overrides resolution. */
module ProviderRegistry {
  import opened Wrappers

  /** A registered adapter as the registry sees it: a fixed name and a live
      enabled flag that the adapter's own backend hooks flip at any time. The
      registry queries the flag at every resolution and never caches it. */
  class Provider {
    const name: string
    var enabled: bool

    constructor (name: string, enabled: bool)
      ensures this.name == name && this.enabled == enabled
    {
      this.name := name;
      this.enabled := enabled;
    }

    /** The backend behind the adapter was hooked or unhooked; nobody tells
        the registry. */
    method SetEnabled(enabled: bool)
      modifies this
      ensures this.enabled == enabled
    {
      this.enabled := enabled;
    }
  }

  /** The least element of a non-empty finite set of keys. */
  ghost function Least(s: set<int>): (m: int)
    requires s != {}
    ensures m in s
    ensures forall j :: j in s ==> m <= j
    decreases s
  {
    assert exists x :: x in s by {
      if forall x :: x !in s {
        assert false;
      }
    }
    var x :| x in s;
    if s == {x} then x
    else
      var y := Least(s - {x});
      assert forall j :: j in s ==> j == x || j in s - {x};
      if x <= y then x else y
  }

  class Registry {
    /** The TreeMap<Integer, Provider>: one provider per key. */
    var providers: map<int, Provider>
    /** The pinned provider (activeEconomy / activePermission); None is Java's null. */
    var active: Option<Provider>

    constructor ()
      ensures providers == map[] && active == None
    {
      providers := map[];
      active := None;
    }

    /** The keys whose provider currently reports isEnabled(). */
    ghost function EnabledKeys(): set<int>
      reads this, providers.Values
    {
      set k | k in providers && providers[k].enabled
    }

    /** What getEconomy/getPermission return: the pin when set, otherwise the
        provider at the least key whose provider is enabled, otherwise nothing. */
    ghost function Resolve(): Option<Provider>
      reads this, providers.Values
    {
      if active.Some? then active
      else if EnabledKeys() == {} then None
      else Some(providers[Least(EnabledKeys())])
    }

    /** getEconomy/getPermission: walk the map in ascending key order and
        return the first enabled provider. */
    method Get() returns (r: Option<Provider>)
      ensures r == Resolve()
    {
      if active.Some? {
        return active;
      }
      var remaining := providers.Keys;
      while remaining != {}
        invariant remaining <= providers.Keys
        invariant EnabledKeys() <= remaining
        decreases remaining
      {
        ghost var least := Least(remaining);
        var k :| k in remaining && forall j :: j in remaining ==> k <= j;
        if providers[k].enabled {
          assert k in EnabledKeys();
          return Some(providers[k]);
        }
        remaining := remaining - {k};
      }
      return None;
    }

    /** Map.put: inserts the provider at the key, replacing any previous one. */
    method Put(key: int, provider: Provider)
      modifies this
      ensures providers == old(providers)[key := provider]
      ensures active == old(active)
    {
      providers := providers[key := provider];
    }

    /** Map.clear: drops every entry; the pin is not touched. */
    method Clear()
      modifies this
      ensures providers == map[]
      ensures active == old(active)
    {
      providers := map[];
    }
  }

  /** A set pin is returned whatever the map holds. */
  lemma PinnedWins(r: Registry)
    requires r.active.Some?
    ensures r.Resolve() == r.active
  {
  }

  /** Without a pin, resolution finds a provider exactly when some registered
      provider is enabled. */
  lemma ResolveNoneIffNoneEnabled(r: Registry)
    requires r.active.None?
    ensures r.Resolve().None? <==> forall k :: k in r.providers ==> !r.providers[k].enabled
  {
    if exists k :: k in r.providers && r.providers[k].enabled {
      var k :| k in r.providers && r.providers[k].enabled;
      assert k in r.EnabledKeys();
    }
  }

  /** Without a pin, a resolved provider is enabled, sits at some key, and
      every provider at a smaller key is disabled. */
  lemma ResolveReturnsLeastEnabled(r: Registry)
    requires r.active.None? && r.Resolve().Some?
    ensures exists k :: (k in r.providers && r.providers[k] == r.Resolve().value
      && r.providers[k].enabled
      && forall j :: j in r.providers && j < k ==> !r.providers[j].enabled)
  {
    var k := Least(r.EnabledKeys());
    assert r.providers[k] == r.Resolve().value;
    assert forall j :: j in r.providers && r.providers[j].enabled ==> j in r.EnabledKeys();
  }

  /** Conversely, an enabled provider with no enabled provider below it is
      the one resolution returns. */
  lemma ResolvePicksLeastEnabled(r: Registry, k: int)
    requires r.active.None?
    requires k in r.providers && r.providers[k].enabled
    requires forall j :: j in r.providers && j < k ==> !r.providers[j].enabled
    ensures r.Resolve() == Some(r.providers[k])
  {
    assert k in r.EnabledKeys();
    var m := Least(r.EnabledKeys());
    assert r.providers[m].enabled;
  }
}
