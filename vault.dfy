/** The Vault plugin: discovery of the known economy and permission backends,
    the two registries they are loaded into, reload, and the /vault command. */
module Vault {
  import opened Wrappers
  import opened ProviderRegistry

  /** A known third-party backend: the fixed key it is registered at, the
      name its log line uses, and the classes that must all be loadable. */
  datatype Backend = Backend(key: int, name: string, classes: seq<string>)

  const ThreeCo := Backend(11, "3co", ["me.ic3d.eco.ECO"])
  const BOSEconomy := Backend(10, "BOSEconomy", ["cosine.boseconomy.BOSEconomy"])
  const EssentialsEconomy := Backend(9, "Essentials Economy",
    ["com.earth2me.essentials.api.Economy",
     "com.earth2me.essentials.api.NoLoanPermittedException",
     "com.earth2me.essentials.api.UserDoesNotExistException"])
  const IConomy4 := Backend(8, "iConomy 4",
    ["com.nijiko.coelho.iConomy.iConomy", "com.nijiko.coelho.iConomy.system.Account"])
  const IConomy5 := Backend(7, "iConomy 5",
    ["com.iConomy.iConomy", "com.iConomy.system.Account", "com.iConomy.system.Holdings"])

  /** loadEconomy's probes, in the order it runs them. */
  const EconomyBackends: seq<Backend> := [ThreeCo, BOSEconomy, EssentialsEconomy, IConomy4, IConomy5]

  const PermissionsEx := Backend(8, "PermissionsEx", ["ru.tehkode.permissions.bukkit.PermissionsEx"])
  const Permissions := Backend(9, "Permissions (Yetti)", ["com.nijikokun.bukkit.Permissions.Permissions"])

  /** loadPermission's probes, in the order it runs them. */
  const PermissionBackends: seq<Backend> := [PermissionsEx, Permissions]

  /** Every named class can be loaded. */
  predicate AllResolve(packages: seq<string>, loadable: set<string>)
  {
    forall i :: 0 <= i < |packages| ==> packages[i] in loadable
  }

  /** packageExists: try to load each class in turn; the first one missing
      makes Class.forName throw and the answer false. */
  method PackageExists(packages: seq<string>, loadable: set<string>) returns (found: bool)
    ensures found <==> AllResolve(packages, loadable)
  {
    for i := 0 to |packages|
      invariant forall j :: 0 <= j < i ==> packages[j] in loadable
    {
      if packages[i] !in loadable {
        return false;
      }
    }
    return true;
  }

  /** The key one probe fills: its own when all its classes resolve. */
  function Probe(b: Backend, loadable: set<string>): set<int>
  {
    if AllResolve(b.classes, loadable) then {b.key} else {}
  }

  /** The keys a load routine fills, given which classes are loadable. */
  function DetectedKeys(backends: seq<Backend>, loadable: set<string>): set<int>
  {
    if backends == [] then {} else Probe(backends[0], loadable) + DetectedKeys(backends[1..], loadable)
  }

  lemma DetectedKeysCons(b: Backend, rest: seq<Backend>, loadable: set<string>)
    ensures DetectedKeys([b] + rest, loadable) == Probe(b, loadable) + DetectedKeys(rest, loadable)
  {
    assert ([b] + rest)[1..] == rest;
  }

  lemma EconomyKeysByProbe(loadable: set<string>)
    ensures DetectedKeys(EconomyBackends, loadable) ==
      Probe(ThreeCo, loadable) + Probe(BOSEconomy, loadable) + Probe(EssentialsEconomy, loadable)
      + Probe(IConomy4, loadable) + Probe(IConomy5, loadable)
  {
    DetectedKeysCons(IConomy5, [], loadable);
    DetectedKeysCons(IConomy4, [IConomy5], loadable);
    DetectedKeysCons(EssentialsEconomy, [IConomy4, IConomy5], loadable);
    DetectedKeysCons(BOSEconomy, [EssentialsEconomy, IConomy4, IConomy5], loadable);
    DetectedKeysCons(ThreeCo, [BOSEconomy, EssentialsEconomy, IConomy4, IConomy5], loadable);
    assert [IConomy5] == [IConomy5] + [];
    assert EconomyBackends == [ThreeCo] + [BOSEconomy, EssentialsEconomy, IConomy4, IConomy5];
  }

  lemma PermissionKeysByProbe(loadable: set<string>)
    ensures DetectedKeys(PermissionBackends, loadable) == Probe(PermissionsEx, loadable) + Probe(Permissions, loadable)
  {
    DetectedKeysCons(Permissions, [], loadable);
    DetectedKeysCons(PermissionsEx, [Permissions], loadable);
    assert [Permissions] == [Permissions] + [];
    assert PermissionBackends == [PermissionsEx] + [Permissions];
  }

  /** What the five probes of loadEconomy leave in the map, in terms of the
      adapters they built. */
  lemma EconomyPlacements(before: map<int, Provider>, threeCo: Option<Provider>, bose: Option<Provider>,
                          essentials: Option<Provider>, iconomy4: Option<Provider>, iconomy5: Option<Provider>,
                          loadable: set<string>)
    requires threeCo.Some? <==> AllResolve(ThreeCo.classes, loadable)
    requires bose.Some? <==> AllResolve(BOSEconomy.classes, loadable)
    requires essentials.Some? <==> AllResolve(EssentialsEconomy.classes, loadable)
    requires iconomy4.Some? <==> AllResolve(IConomy4.classes, loadable)
    requires iconomy5.Some? <==> AllResolve(IConomy5.classes, loadable)
    ensures var after := Placed(Placed(Placed(Placed(Placed(before, 11, threeCo), 10, bose), 9, essentials), 8, iconomy4), 7, iconomy5);
      && after.Keys == before.Keys + DetectedKeys(EconomyBackends, loadable)
      && (forall k :: k in before && k !in DetectedKeys(EconomyBackends, loadable) ==> after[k] == before[k])
      && (threeCo.Some? ==> after[11] == threeCo.value)
      && (bose.Some? ==> after[10] == bose.value)
      && (essentials.Some? ==> after[9] == essentials.value)
      && (iconomy4.Some? ==> after[8] == iconomy4.value)
      && (iconomy5.Some? ==> after[7] == iconomy5.value)
      && (forall k :: k in DetectedKeys(EconomyBackends, loadable) ==>
            || (threeCo.Some? && after[k] == threeCo.value)
            || (bose.Some? && after[k] == bose.value)
            || (essentials.Some? && after[k] == essentials.value)
            || (iconomy4.Some? && after[k] == iconomy4.value)
            || (iconomy5.Some? && after[k] == iconomy5.value))
  {
    EconomyKeysByProbe(loadable);
  }

  /** The map holds, at the backend's key, an adapter for that backend whose
      initial enablement is whether its plugin was already running. */
  ghost predicate Hosts(providers: map<int, Provider>, b: Backend, running: set<string>)
    reads providers.Values
  {
    b.key in providers
    && providers[b.key].name == b.name
    && providers[b.key].enabled == (b.name in running)
  }

  /** A detected backend has its adapter at its key. */
  ghost predicate HostsIfDetected(providers: map<int, Provider>, b: Backend, loadable: set<string>, running: set<string>)
    reads providers.Values
  {
    AllResolve(b.classes, loadable) ==> Hosts(providers, b, running)
  }

  /** Every economy backend loadEconomy detects has its adapter at its key. */
  ghost predicate EconomyHosted(providers: map<int, Provider>, loadable: set<string>, running: set<string>)
    reads providers.Values
  {
    && HostsIfDetected(providers, ThreeCo, loadable, running)
    && HostsIfDetected(providers, BOSEconomy, loadable, running)
    && HostsIfDetected(providers, EssentialsEconomy, loadable, running)
    && HostsIfDetected(providers, IConomy4, loadable, running)
    && HostsIfDetected(providers, IConomy5, loadable, running)
  }

  /** Every permission backend loadPermission detects has its adapter at its key. */
  ghost predicate PermissionHosted(providers: map<int, Provider>, loadable: set<string>, running: set<string>)
    reads providers.Values
  {
    && HostsIfDetected(providers, PermissionsEx, loadable, running)
    && HostsIfDetected(providers, Permissions, loadable, running)
  }

  /** The economy registry right after reload: unpinned, holding exactly the
      detected backends' adapters. */
  ghost predicate EconomyReloaded(r: Registry, loadable: set<string>, running: set<string>)
    reads r, r.providers.Values
  {
    && r.active.None?
    && r.providers.Keys == DetectedKeys(EconomyBackends, loadable)
    && EconomyHosted(r.providers, loadable, running)
  }

  /** The permission registry right after reload. */
  ghost predicate PermissionReloaded(r: Registry, loadable: set<string>, running: set<string>)
    reads r, r.providers.Values
  {
    && r.active.None?
    && r.providers.Keys == DetectedKeys(PermissionBackends, loadable)
    && PermissionHosted(r.providers, loadable, running)
  }

  /** The map after a probe: the adapter put at the key, if one was built. */
  function Placed(providers: map<int, Provider>, key: int, adapter: Option<Provider>): map<int, Provider>
  {
    if adapter.Some? then providers[key := adapter.value] else providers
  }

  /** One probe of a load routine: if the backend's classes all resolve, build
      its adapter and put it at the backend's key. */
  method LoadBackend(registry: Registry, b: Backend, loadable: set<string>, running: set<string>)
    returns (adapter: Option<Provider>)
    modifies registry
    ensures adapter.Some? <==> AllResolve(b.classes, loadable)
    ensures adapter.Some? ==>
      && fresh(adapter.value)
      && adapter.value.name == b.name
      && adapter.value.enabled == (b.name in running)
    ensures registry.providers == Placed(old(registry.providers), b.key, adapter)
    ensures registry.active == old(registry.active)
  {
    var found := PackageExists(b.classes, loadable);
    if found {
      var built := new Provider(b.name, b.name in running);
      registry.Put(b.key, built);
      adapter := Some(built);
    } else {
      adapter := None;
    }
  }

  /** Who issued a command. */
  datatype Sender = PlayerSender(isOp: bool) | ConsoleSender | OtherSender

  /** onCommand's gate: only operators and the console get past it. */
  predicate Admitted(sender: Sender)
  {
    match sender
    case PlayerSender(isOp) => isOp
    case ConsoleSender => true
    case OtherSender => false
  }

  datatype Subcommand = Info | ReloadAddons | Help

  function ToLowerAscii(c: char): char
  {
    if 'A' <= c <= 'Z' then (c as int + 32) as char else c
  }

  function Lowered(s: string): (r: string)
    ensures |r| == |s|
    ensures forall i :: 0 <= i < |s| ==> r[i] == ToLowerAscii(s[i])
  {
    if s == [] then [] else [ToLowerAscii(s[0])] + Lowered(s[1..])
  }

  /** String.equalsIgnoreCase, character by character. */
  predicate EqualsIgnoreCase(s: string, t: string)
  {
    |s| == |t| && forall i :: 0 <= i < |s| ==> ToLowerAscii(s[i]) == ToLowerAscii(t[i])
  }

  /** Which branch of onCommand a command and argument list reach; command is
      the invoked command's own label (command.getLabel()), which onCommand
      tests rather than its commandLabel argument. */
  function ParseCommand(command: string, args: seq<string>): Subcommand
  {
    if command == "vault" && |args| > 0 then
      if EqualsIgnoreCase(args[0], "info") then Info
      else if EqualsIgnoreCase(args[0], "reload") then ReloadAddons
      else Help
    else Help
  }

  datatype CommandOutcome =
    | Ignored
    | InfoShown(economy: string, permission: string)
    | InfoFailed   // getName() on a null provider: NullPointerException
    | Reloaded
    | HelpShown

  /** "/vault info": the names of both active providers; when either is null
      the getName() call throws. */
  function InfoReport(economy: Option<Provider>, permission: Option<Provider>): CommandOutcome
  {
    if economy.None? || permission.None? then InfoFailed
    else InfoShown(economy.value.name, permission.value.name)
  }

  class Vault {
    /** econs / activeEconomy */
    const econs: Registry
    /** perms / activePermission */
    const perms: Registry

    ghost predicate Valid()
      reads this
    {
      econs != perms
    }

    constructor ()
      ensures Valid() && fresh(econs) && fresh(perms)
      ensures econs.providers == map[] && econs.active == None
      ensures perms.providers == map[] && perms.active == None
    {
      econs := new Registry();
      perms := new Registry();
    }

    /** getEconomy */
    method GetEconomy() returns (economy: Option<Provider>)
      ensures economy == econs.Resolve()
    {
      economy := econs.Get();
    }

    /** getPermission */
    method GetPermission() returns (permission: Option<Provider>)
      ensures permission == perms.Resolve()
    {
      permission := perms.Get();
    }

    /** loadEconomy: probe 3co, BOSEconomy, Essentials, iConomy 4, iConomy 5. */
    method LoadEconomy(loadable: set<string>, running: set<string>)
      requires Valid()
      modifies econs
      ensures econs.active == old(econs.active)
      ensures econs.providers.Keys == old(econs.providers.Keys) + DetectedKeys(EconomyBackends, loadable)
      ensures forall k :: k in old(econs.providers) && k !in DetectedKeys(EconomyBackends, loadable) ==>
        econs.providers[k] == old(econs.providers[k])
      ensures forall k :: k in DetectedKeys(EconomyBackends, loadable) ==> fresh(econs.providers[k])
      ensures HostsIfDetected(econs.providers, ThreeCo, loadable, running)
      ensures HostsIfDetected(econs.providers, BOSEconomy, loadable, running)
      ensures HostsIfDetected(econs.providers, EssentialsEconomy, loadable, running)
      ensures HostsIfDetected(econs.providers, IConomy4, loadable, running)
      ensures HostsIfDetected(econs.providers, IConomy5, loadable, running)
    {
      ghost var before := econs.providers;
      var threeCo := LoadBackend(econs, ThreeCo, loadable, running);
      var bose := LoadBackend(econs, BOSEconomy, loadable, running);
      var essentials := LoadBackend(econs, EssentialsEconomy, loadable, running);
      var iconomy4 := LoadBackend(econs, IConomy4, loadable, running);
      var iconomy5 := LoadBackend(econs, IConomy5, loadable, running);
      EconomyPlacements(before, threeCo, bose, essentials, iconomy4, iconomy5, loadable);
    }

    /** loadPermission: probe PermissionsEx, then Permissions. */
    method LoadPermission(loadable: set<string>, running: set<string>)
      requires Valid()
      modifies perms
      ensures perms.active == old(perms.active)
      ensures perms.providers.Keys == old(perms.providers.Keys) + DetectedKeys(PermissionBackends, loadable)
      ensures forall k :: k in old(perms.providers) && k !in DetectedKeys(PermissionBackends, loadable) ==>
        perms.providers[k] == old(perms.providers[k])
      ensures forall k :: k in DetectedKeys(PermissionBackends, loadable) ==> fresh(perms.providers[k])
      ensures HostsIfDetected(perms.providers, PermissionsEx, loadable, running)
      ensures HostsIfDetected(perms.providers, Permissions, loadable, running)
    {
      var permissionsEx := LoadBackend(perms, PermissionsEx, loadable, running);
      var permissions := LoadBackend(perms, Permissions, loadable, running);
      PermissionKeysByProbe(loadable);
    }

    /** reload: clear and unpin each registry, then run its load routine. */
    method Reload(loadable: set<string>, running: set<string>)
      requires Valid()
      modifies econs, perms
      ensures EconomyReloaded(econs, loadable, running)
      ensures PermissionReloaded(perms, loadable, running)
      ensures forall k :: k in econs.providers ==> fresh(econs.providers[k])
      ensures forall k :: k in perms.providers ==> fresh(perms.providers[k])
    {
      econs.Clear();
      econs.active := None;
      LoadEconomy(loadable, running);

      perms.Clear();
      perms.active := None;
      LoadPermission(loadable, running);
    }

    /** onCommand, with the messages it sends left out. */
    method OnCommand(sender: Sender, command: string, args: seq<string>, loadable: set<string>, running: set<string>)
      returns (outcome: CommandOutcome)
      requires Valid()
      modifies econs, perms
      ensures !Admitted(sender) ==> outcome == Ignored
      ensures Admitted(sender) && ParseCommand(command, args) == Info ==>
        outcome == InfoReport(old(econs.Resolve()), old(perms.Resolve()))
      ensures Admitted(sender) && ParseCommand(command, args) == Help ==> outcome == HelpShown
      ensures Admitted(sender) && ParseCommand(command, args) == ReloadAddons ==>
        && outcome == Reloaded
        && EconomyReloaded(econs, loadable, running)
        && PermissionReloaded(perms, loadable, running)
      ensures outcome != Reloaded ==>
        && econs.providers == old(econs.providers) && econs.active == old(econs.active)
        && perms.providers == old(perms.providers) && perms.active == old(perms.active)
    {
      if !Admitted(sender) {
        return Ignored;
      }
      match ParseCommand(command, args)
      case Info =>
        var economy := GetEconomy();
        var permission := GetPermission();
        outcome := InfoReport(economy, permission);
      case ReloadAddons =>
        Reload(loadable, running);
        outcome := Reloaded;
      case Help =>
        outcome := HelpShown;
    }
  }

  /** The economy probes use the keys 7 to 11, each probe its own key, each
      present exactly when its classes resolve. */
  lemma EconomyDetection(loadable: set<string>)
    ensures DetectedKeys(EconomyBackends, loadable) <= {7, 8, 9, 10, 11}
    ensures 11 in DetectedKeys(EconomyBackends, loadable) <==> "me.ic3d.eco.ECO" in loadable
    ensures 10 in DetectedKeys(EconomyBackends, loadable) <==> "cosine.boseconomy.BOSEconomy" in loadable
    ensures 9 in DetectedKeys(EconomyBackends, loadable) <==> AllResolve(EssentialsEconomy.classes, loadable)
    ensures 8 in DetectedKeys(EconomyBackends, loadable) <==> AllResolve(IConomy4.classes, loadable)
    ensures 7 in DetectedKeys(EconomyBackends, loadable) <==> AllResolve(IConomy5.classes, loadable)
  {
    EconomyKeysByProbe(loadable);
    assert AllResolve(ThreeCo.classes, loadable) <==> ThreeCo.classes[0] in loadable;
    assert AllResolve(BOSEconomy.classes, loadable) <==> BOSEconomy.classes[0] in loadable;
  }

  /** The permission probes use keys 8 (PermissionsEx) and 9 (Permissions). */
  lemma PermissionDetection(loadable: set<string>)
    ensures DetectedKeys(PermissionBackends, loadable) <= {8, 9}
    ensures 8 in DetectedKeys(PermissionBackends, loadable) <==> "ru.tehkode.permissions.bukkit.PermissionsEx" in loadable
    ensures 9 in DetectedKeys(PermissionBackends, loadable) <==> "com.nijikokun.bukkit.Permissions.Permissions" in loadable
  {
    PermissionKeysByProbe(loadable);
    assert AllResolve(PermissionsEx.classes, loadable) <==> PermissionsEx.classes[0] in loadable;
    assert AllResolve(Permissions.classes, loadable) <==> Permissions.classes[0] in loadable;
  }

  /** After a reload that found iConomy 5 already running, getEconomy returns
      it, whatever else was found: key 7 is the least key any probe uses. */
  lemma ReloadedEconomyPrefersIConomy5(r: Registry, loadable: set<string>, running: set<string>)
    requires EconomyReloaded(r, loadable, running)
    requires AllResolve(IConomy5.classes, loadable) && IConomy5.name in running
    ensures IConomy5.key in r.providers && r.Resolve() == Some(r.providers[IConomy5.key])
    ensures r.Resolve().Some? && r.Resolve().value.name == "iConomy 5"
  {
    EconomyDetection(loadable);
    assert Hosts(r.providers, IConomy5, running);
    ResolvePicksLeastEnabled(r, 7);
  }

  /** equalsIgnoreCase agrees with comparing the lower-cased strings. */
  lemma EqualsIgnoreCaseIsLoweredEquality(s: string, t: string)
    ensures EqualsIgnoreCase(s, t) <==> Lowered(s) == Lowered(t)
  {
    if Lowered(s) == Lowered(t) {
      assert |s| == |t|;
      forall i | 0 <= i < |s|
        ensures ToLowerAscii(s[i]) == ToLowerAscii(t[i])
      {
        assert Lowered(s)[i] == Lowered(t)[i];
      }
    }
  }

  /** The sub-command words are matched whatever their case. */
  lemma ParseIgnoresCase(command: string, args: seq<string>)
    ensures ParseCommand(command, args) ==
      if command == "vault" && |args| > 0 then
        if Lowered(args[0]) == "info" then Info
        else if Lowered(args[0]) == "reload" then ReloadAddons
        else Help
      else Help
  {
    if |args| > 0 {
      EqualsIgnoreCaseIsLoweredEquality(args[0], "info");
      EqualsIgnoreCaseIsLoweredEquality(args[0], "reload");
      assert Lowered("info") == "info";
      assert Lowered("reload") == "reload";
    }
  }

  /** Non-operator players and senders other than the console are turned
      away; operators and the console get through. */
  lemma GateAdmitsOnlyOpsAndConsole(sender: Sender)
    ensures Admitted(sender) <==> sender == ConsoleSender || sender == PlayerSender(true)
  {
  }

  /** iConomy 5 at key 7 beats 3co at key 11 while both are enabled; once
      iConomy 5 is disabled, 3co is returned, and with both disabled nothing. */
  lemma SmallestEnabledKeyWins(registry: Registry, iconomy5: Provider, threeCo: Provider)
    requires registry.active.None?
    requires registry.providers == map[IConomy5.key := iconomy5, ThreeCo.key := threeCo]
    ensures iconomy5.enabled ==> registry.Resolve() == Some(iconomy5)
    ensures !iconomy5.enabled && threeCo.enabled ==> registry.Resolve() == Some(threeCo)
    ensures !iconomy5.enabled && !threeCo.enabled ==> registry.Resolve() == None
  {
    if iconomy5.enabled {
      ResolvePicksLeastEnabled(registry, IConomy5.key);
    } else if threeCo.enabled {
      ResolvePicksLeastEnabled(registry, ThreeCo.key);
    } else {
      ResolveNoneIffNoneEnabled(registry);
    }
  }

  /** Resolution asks the providers afresh on every call: disabling the
      iConomy 5 adapter at key 7 makes the next lookup fall back to the
      enabled 3co adapter at key 11, with the map itself untouched. */
  method DisablingLeastFallsBack(registry: Registry, iconomy5: Provider, threeCo: Provider)
      returns (before: Option<Provider>, after: Option<Provider>)
    requires registry.active.None?
    requires registry.providers == map[IConomy5.key := iconomy5, ThreeCo.key := threeCo]
    requires iconomy5 != threeCo && iconomy5.enabled && threeCo.enabled
    modifies iconomy5
    ensures before == Some(iconomy5) && after == Some(threeCo)
  {
    SmallestEnabledKeyWins(registry, iconomy5, threeCo);
    before := registry.Get();
    iconomy5.SetEnabled(false);
    SmallestEnabledKeyWins(registry, iconomy5, threeCo);
    after := registry.Get();
  }
}
