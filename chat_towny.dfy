/** The Towny chat adapter: a handle to the Towny plugin that plugin enable
    and disable events set and clear, prefix and suffix lookups in Towny's
    universe of residents and towns, and a refusal for everything else. */
module TownyChat {
  import opened Wrappers

  /** What Towny keeps about a resident and a town, as far as chat is concerned. */
  datatype Resident = Resident(title: string, surname: string)
  datatype Town = Town(tag: string)

  /** The Towny plugin, as its universe of registered residents and towns. */
  datatype Towny = Towny(residents: map<string, Resident>, towns: map<string, Town>)

  /** What a chat call can throw: the refusal of an unsupported operation, or
      the null dereference of a lookup made while Towny is not hooked. */
  datatype ChatError = UnsupportedOperation(message: string) | NullPointer

  /** A server event the adapter listens to. An enable event carries what the
      plugin manager answers, at that moment, when asked for "Towny"; a
      disable event carries the name of the plugin going down. */
  datatype PluginEvent = PluginEnabled(lookup: Option<Towny>) | PluginDisabled(pluginName: string)

  const TownyName := "Towny"

  /** The handle after one event. An enable event fills an empty handle with
      the lookup, whatever it is, since the guard before the assignment tests
      the listener's own back-reference; a disable event empties the handle
      only when Towny itself is going down. */
  function NextHandle(handle: Option<Towny>, event: PluginEvent): Option<Towny>
  {
    match event
    case PluginEnabled(lookup) => if handle.None? then lookup else handle
    case PluginDisabled(pluginName) => if handle.Some? && pluginName == TownyName then None else handle
  }

  /** The handle after a sequence of events, oldest first. */
  function Replay(handle: Option<Towny>, events: seq<PluginEvent>): Option<Towny>
    decreases |events|
  {
    if events == [] then handle else Replay(NextHandle(handle, events[0]), events[1..])
  }

  /** A hooked adapter stays hooked, to the very same Towny, until Towny itself
      is disabled: enable events and other plugins going down change nothing. */
  lemma {:induction false} HookSurvivesOtherEvents(t: Towny, events: seq<PluginEvent>)
    requires forall i :: 0 <= i < |events| ==> events[i] != PluginDisabled(TownyName)
    ensures Replay(Some(t), events) == Some(t)
    decreases |events|
  {
    if events != [] {
      assert NextHandle(Some(t), events[0]) == Some(t);
      HookSurvivesOtherEvents(t, events[1..]);
    }
  }

  /** After Towny goes down, the next enable event hooks exactly what the
      plugin manager then answers, null included. */
  lemma DisableThenEnableRehooks(handle: Option<Towny>, lookup: Option<Towny>)
    ensures Replay(handle, [PluginDisabled(TownyName), PluginEnabled(lookup)]) == lookup
  {
    var events := [PluginDisabled(TownyName), PluginEnabled(lookup)];
    assert NextHandle(handle, events[0]) == None;
    assert events[1..] == [PluginEnabled(lookup)];
    assert Replay(None, [PluginEnabled(lookup)]) == Replay(lookup, []);
  }

  /** The operations Towny has no counterpart for. */
  datatype Unsupported =
    | SetPlayerPrefix | SetPlayerSuffix | SetGroupPrefix | GetGroupSuffix | SetGroupSuffix
    | GetPlayerInfoInteger | SetPlayerInfoInteger | GetGroupInfoInteger | SetGroupInfoInteger
    | GetPlayerInfoDouble | SetPlayerInfoDouble | GetGroupInfoDouble | SetGroupInfoDouble
    | GetPlayerInfoBoolean | SetPlayerInfoBoolean | GetGroupInfoBoolean | SetGroupInfoBoolean
    | GetPlayerInfoString | SetPlayerInfoString | GetGroupInfoString | SetGroupInfoString
  {
    /** The sixteen info-node getters and setters. */
    predicate IsInfoNode()
    {
      !(SetPlayerPrefix? || SetPlayerSuffix? || SetGroupPrefix? || GetGroupSuffix? || SetGroupSuffix?)
    }
  }

  /** The exception an unsupported operation throws, whatever its arguments
      and whatever the hook state. */
  function Refusal(op: Unsupported): (e: ChatError)
    ensures e.UnsupportedOperation?
    ensures e.message == "Towny does not support info nodes" <==> op.IsInfoNode()
    ensures e.message == "Towny does not support altering prefixes" <==> op == SetPlayerPrefix || op == SetGroupPrefix
    ensures e.message == "Towny does not support altering suffixes" <==> op == SetPlayerSuffix || op == SetGroupSuffix
    ensures e.message == "Towny does not support group/town suffixes" <==> op == GetGroupSuffix
  {
    match op
    case SetPlayerPrefix => UnsupportedOperation("Towny does not support altering prefixes")
    case SetGroupPrefix => UnsupportedOperation("Towny does not support altering prefixes")
    case SetPlayerSuffix => UnsupportedOperation("Towny does not support altering suffixes")
    case SetGroupSuffix => UnsupportedOperation("Towny does not support altering suffixes")
    case GetGroupSuffix => UnsupportedOperation("Towny does not support group/town suffixes")
    case _ => UnsupportedOperation("Towny does not support info nodes")
  }

  /** Towny's universe lookups: the resident's or town's field, or "" when
      Towny answers that the name is not registered. */
  function TitleOf(t: Towny, player: string): string
  {
    if player in t.residents then t.residents[player].title else ""
  }

  function SurnameOf(t: Towny, player: string): string
  {
    if player in t.residents then t.residents[player].surname else ""
  }

  function TagOf(t: Towny, group: string): string
  {
    if group in t.towns then t.towns[group].tag else ""
  }

  class ChatTowny {
    const name: string := TownyName
    var towny: Option<Towny>

    /** Hooks at once when Towny is already loaded; lookup is what the plugin
        manager answers for "Towny" at construction. */
    constructor (lookup: Option<Towny>)
      ensures towny == lookup
    {
      towny := None;
      if lookup.Some? {
        towny := lookup;
      }
    }

    function GetName(): (n: string)
      ensures n == "Towny"
    {
      name
    }

    /** Enabled exactly while the Towny handle is set. */
    function IsEnabled(): (hooked: bool)
      reads this
      ensures hooked <==> towny != None
    {
      towny.Some?
    }

    method OnPluginEnable(lookup: Option<Towny>)
      modifies this
      ensures towny == NextHandle(old(towny), PluginEnabled(lookup))
      ensures old(IsEnabled()) ==> towny == old(towny)
    {
      if towny.None? {
        towny := lookup;
      }
    }

    method OnPluginDisable(pluginName: string)
      modifies this
      ensures towny == NextHandle(old(towny), PluginDisabled(pluginName))
      ensures !IsEnabled() <==> old(!IsEnabled()) || pluginName == TownyName
    {
      if towny.Some? {
        if pluginName == TownyName {
          towny := None;
        }
      }
    }

    /** The player's Towny title. The world is not consulted. */
    function PlayerPrefix(world: string, player: string): (r: Result<string, ChatError>)
      reads this
      ensures r.Success? <==> IsEnabled()
      ensures r.Failure? ==> r.error == NullPointer
      ensures r.Success? && player !in towny.value.residents ==> r.value == ""
      ensures r.Success? && player in towny.value.residents ==> r.value == towny.value.residents[player].title
    {
      if towny.None? then Failure(NullPointer) else Success(TitleOf(towny.value, player))
    }

    /** The player's Towny surname. The world is not consulted. */
    function PlayerSuffix(world: string, player: string): (r: Result<string, ChatError>)
      reads this
      ensures r.Success? <==> IsEnabled()
      ensures r.Failure? ==> r.error == NullPointer
      ensures r.Success? && player !in towny.value.residents ==> r.value == ""
      ensures r.Success? && player in towny.value.residents ==> r.value == towny.value.residents[player].surname
    {
      if towny.None? then Failure(NullPointer) else Success(SurnameOf(towny.value, player))
    }

    /** The tag of the town named by the group. The world is not consulted. */
    function GroupPrefix(world: string, group: string): (r: Result<string, ChatError>)
      reads this
      ensures r.Success? <==> IsEnabled()
      ensures r.Failure? ==> r.error == NullPointer
      ensures r.Success? && group !in towny.value.towns ==> r.value == ""
      ensures r.Success? && group in towny.value.towns ==> r.value == towny.value.towns[group].tag
    {
      if towny.None? then Failure(NullPointer) else Success(TagOf(towny.value, group))
    }
  }

  /** The three lookups ignore the world argument. */
  lemma LookupsIgnoreWorld(c: ChatTowny, w1: string, w2: string, name: string)
    ensures c.PlayerPrefix(w1, name) == c.PlayerPrefix(w2, name)
    ensures c.PlayerSuffix(w1, name) == c.PlayerSuffix(w2, name)
    ensures c.GroupPrefix(w1, name) == c.GroupPrefix(w2, name)
  {
  }

  /** Right after a Towny disable event all three lookups fail with a null
      dereference, whatever the adapter's state before. */
  method DisableBreaksLookups(c: ChatTowny, world: string, player: string, group: string)
      returns (prefix: Result<string, ChatError>, suffix: Result<string, ChatError>, tag: Result<string, ChatError>)
    modifies c
    ensures prefix == Failure(NullPointer)
    ensures suffix == Failure(NullPointer)
    ensures tag == Failure(NullPointer)
  {
    c.OnPluginDisable(TownyName);
    prefix := c.PlayerPrefix(world, player);
    suffix := c.PlayerSuffix(world, player);
    tag := c.GroupPrefix(world, group);
  }

  /** An empty handle stays empty while no enable event arrives. */
  lemma {:induction false} UnhookedStaysUnhooked(events: seq<PluginEvent>)
    requires forall i :: 0 <= i < |events| ==> !events[i].PluginEnabled?
    ensures Replay(None, events) == None
    decreases |events|
  {
    if events != [] {
      assert NextHandle(None, events[0]) == None;
      UnhookedStaysUnhooked(events[1..]);
    }
  }

  /** After a Towny disable event the handle stays empty, and so every lookup
      keeps failing, until the next enable event. */
  lemma UnhookedUntilEnabled(handle: Option<Towny>, events: seq<PluginEvent>)
    requires forall i :: 0 <= i < |events| ==> !events[i].PluginEnabled?
    ensures Replay(handle, [PluginDisabled(TownyName)] + events) == None
  {
    var all := [PluginDisabled(TownyName)] + events;
    assert NextHandle(handle, all[0]) == None;
    assert all[1..] == events;
    UnhookedStaysUnhooked(events);
  }
}
