/** The permission provider contract: a provider answers a fixed set of
    primary questions, each keyed by a world name and a player or group name,
    and every convenience overload is that primary question asked with names
    taken from a World or a Player. */
module PermissionContract {

  /** A world, known here only by its name. */
  datatype World = World(name: string)

  /** An online player: its own name and the world it stands in. */
  datatype Player = Player(name: string, world: World)

  /** The call a provider's primary setter receives; the overloads of a setter
      differ only in how they build it. */
  datatype Update =
    | SetPlayerInfoInteger(world: string, player: string, node: string, intValue: int)
    | SetGroupInfoInteger(world: string, group: string, node: string, intValue: int)
    | SetPlayerInfoDouble(world: string, player: string, node: string, realValue: real)
    | SetGroupInfoDouble(world: string, group: string, node: string, realValue: real)
    | SetPlayerInfoBoolean(world: string, player: string, node: string, boolValue: bool)
    | SetGroupInfoBoolean(world: string, group: string, node: string, boolValue: bool)
    | SetPlayerInfoString(world: string, player: string, node: string, textValue: string)
    | SetGroupInfoString(world: string, group: string, node: string, textValue: string)
    | SetPlayerPrefix(world: string, player: string, prefix: string)
    | SetPlayerSuffix(world: string, player: string, suffix: string)

  /** A permission provider, as the operations it must implement. Every
      question takes the world name first. */
  datatype Permission = Permission(
    name: string,
    enabled: bool,
    playerHas: (string, string, string) -> bool,
    playerAdd: (string, string, string) -> bool,
    playerRemove: (string, string, string) -> bool,
    groupHas: (string, string, string) -> bool,
    groupAdd: (string, string, string) -> bool,
    groupRemove: (string, string, string) -> bool,
    playerInGroup: (string, string, string) -> bool,
    playerAddGroup: (string, string, string) -> bool,
    playerRemoveGroup: (string, string, string) -> bool,
    playerInfoInteger: (string, string, string, int) -> int,
    groupInfoInteger: (string, string, string, int) -> int,
    playerInfoDouble: (string, string, string, real) -> real,
    groupInfoDouble: (string, string, string, real) -> real,
    playerInfoBoolean: (string, string, string, bool) -> bool,
    groupInfoBoolean: (string, string, string, bool) -> bool,
    playerInfoString: (string, string, string, string) -> string,
    groupInfoString: (string, string, string, string) -> string,
    playerGroups: (string, string) -> seq<string>,
    primaryGroup: (string, string) -> string,
    playerPrefix: (string, string) -> string,
    playerSuffix: (string, string) -> string)

  // has: a short name for playerHas

  function Has(p: Permission, world: string, player: string, node: string): bool
  {
    p.playerHas(world, player, node)
  }

  function HasAtWorld(p: Permission, world: World, player: string, node: string): bool
  {
    p.playerHas(world.name, player, node)
  }

  function HasOfPlayer(p: Permission, player: Player, node: string): bool
  {
    p.playerHas(player.world.name, player.name, node)
  }

  // playerHas, playerAdd, playerRemove

  function PlayerHasAtWorld(p: Permission, world: World, player: string, node: string): bool
  {
    p.playerHas(world.name, player, node)
  }

  function PlayerHasOfPlayer(p: Permission, player: Player, node: string): bool
  {
    p.playerHas(player.world.name, player.name, node)
  }

  function PlayerAddAtWorld(p: Permission, world: World, player: string, node: string): bool
  {
    p.playerAdd(world.name, player, node)
  }

  function PlayerAddOfPlayer(p: Permission, player: Player, node: string): bool
  {
    p.playerAdd(player.world.name, player.name, node)
  }

  function PlayerRemoveAtWorld(p: Permission, world: World, player: string, node: string): bool
  {
    p.playerRemove(world.name, player, node)
  }

  function PlayerRemoveOfPlayer(p: Permission, player: Player, node: string): bool
  {
    p.playerRemove(player.world.name, player.name, node)
  }

  // groupHas, groupAdd, groupRemove: a group has no Player form

  function GroupHasAtWorld(p: Permission, world: World, group: string, node: string): bool
  {
    p.groupHas(world.name, group, node)
  }

  function GroupAddAtWorld(p: Permission, world: World, group: string, node: string): bool
  {
    p.groupAdd(world.name, group, node)
  }

  function GroupRemoveAtWorld(p: Permission, world: World, group: string, node: string): bool
  {
    p.groupRemove(world.name, group, node)
  }

  // playerInGroup, playerAddGroup, playerRemoveGroup

  function PlayerInGroupAtWorld(p: Permission, world: World, player: string, group: string): bool
  {
    p.playerInGroup(world.name, player, group)
  }

  function PlayerInGroupOfPlayer(p: Permission, player: Player, group: string): bool
  {
    p.playerInGroup(player.world.name, player.name, group)
  }

  function PlayerAddGroupAtWorld(p: Permission, world: World, player: string, group: string): bool
  {
    p.playerAddGroup(world.name, player, group)
  }

  function PlayerAddGroupOfPlayer(p: Permission, player: Player, group: string): bool
  {
    p.playerAddGroup(player.world.name, player.name, group)
  }

  function PlayerRemoveGroupAtWorld(p: Permission, world: World, player: string, group: string): bool
  {
    p.playerRemoveGroup(world.name, player, group)
  }

  function PlayerRemoveGroupOfPlayer(p: Permission, player: Player, group: string): bool
  {
    p.playerRemoveGroup(player.world.name, player.name, group)
  }

  // Info node getters

  function PlayerInfoIntegerAtWorld(p: Permission, world: World, player: string, node: string, defaultValue: int): int
  {
    p.playerInfoInteger(world.name, player, node, defaultValue)
  }

  function PlayerInfoIntegerOfPlayer(p: Permission, player: Player, node: string, defaultValue: int): int
  {
    p.playerInfoInteger(player.world.name, player.name, node, defaultValue)
  }

  function GroupInfoIntegerAtWorld(p: Permission, world: World, group: string, node: string, defaultValue: int): int
  {
    p.groupInfoInteger(world.name, group, node, defaultValue)
  }

  function PlayerInfoDoubleAtWorld(p: Permission, world: World, player: string, node: string, defaultValue: real): real
  {
    p.playerInfoDouble(world.name, player, node, defaultValue)
  }

  function PlayerInfoDoubleOfPlayer(p: Permission, player: Player, node: string, defaultValue: real): real
  {
    p.playerInfoDouble(player.world.name, player.name, node, defaultValue)
  }

  function GroupInfoDoubleAtWorld(p: Permission, world: World, group: string, node: string, defaultValue: real): real
  {
    p.groupInfoDouble(world.name, group, node, defaultValue)
  }

  function PlayerInfoBooleanAtWorld(p: Permission, world: World, player: string, node: string, defaultValue: bool): bool
  {
    p.playerInfoBoolean(world.name, player, node, defaultValue)
  }

  function PlayerInfoBooleanOfPlayer(p: Permission, player: Player, node: string, defaultValue: bool): bool
  {
    p.playerInfoBoolean(player.world.name, player.name, node, defaultValue)
  }

  function GroupInfoBooleanAtWorld(p: Permission, world: World, group: string, node: string, defaultValue: bool): bool
  {
    p.groupInfoBoolean(world.name, group, node, defaultValue)
  }

  function PlayerInfoStringAtWorld(p: Permission, world: World, player: string, node: string, defaultValue: string): string
  {
    p.playerInfoString(world.name, player, node, defaultValue)
  }

  function PlayerInfoStringOfPlayer(p: Permission, player: Player, node: string, defaultValue: string): string
  {
    p.playerInfoString(player.world.name, player.name, node, defaultValue)
  }

  function GroupInfoStringAtWorld(p: Permission, world: World, group: string, node: string, defaultValue: string): string
  {
    p.groupInfoString(world.name, group, node, defaultValue)
  }

  // Info node setters: the call each overload hands to the primary setter

  function SetPlayerInfoIntegerAtWorld(world: World, player: string, node: string, value: int): Update
  {
    SetPlayerInfoInteger(world.name, player, node, value)
  }

  function SetPlayerInfoIntegerOfPlayer(player: Player, node: string, value: int): Update
  {
    SetPlayerInfoInteger(player.world.name, player.name, node, value)
  }

  function SetGroupInfoIntegerAtWorld(world: World, group: string, node: string, value: int): Update
  {
    SetGroupInfoInteger(world.name, group, node, value)
  }

  function SetPlayerInfoDoubleAtWorld(world: World, player: string, node: string, value: real): Update
  {
    SetPlayerInfoDouble(world.name, player, node, value)
  }

  function SetPlayerInfoDoubleOfPlayer(player: Player, node: string, value: real): Update
  {
    SetPlayerInfoDouble(player.world.name, player.name, node, value)
  }

  function SetGroupInfoDoubleAtWorld(world: World, group: string, node: string, value: real): Update
  {
    SetGroupInfoDouble(world.name, group, node, value)
  }

  function SetPlayerInfoBooleanAtWorld(world: World, player: string, node: string, value: bool): Update
  {
    SetPlayerInfoBoolean(world.name, player, node, value)
  }

  function SetPlayerInfoBooleanOfPlayer(player: Player, node: string, value: bool): Update
  {
    SetPlayerInfoBoolean(player.world.name, player.name, node, value)
  }

  function SetGroupInfoBooleanAtWorld(world: World, group: string, node: string, value: bool): Update
  {
    SetGroupInfoBoolean(world.name, group, node, value)
  }

  function SetPlayerInfoStringAtWorld(world: World, player: string, node: string, value: string): Update
  {
    SetPlayerInfoString(world.name, player, node, value)
  }

  function SetPlayerInfoStringOfPlayer(player: Player, node: string, value: string): Update
  {
    SetPlayerInfoString(player.world.name, player.name, node, value)
  }

  function SetGroupInfoStringAtWorld(world: World, group: string, node: string, value: string): Update
  {
    SetGroupInfoString(world.name, group, node, value)
  }

  // Groups of a player

  function PlayerGroupsAtWorld(p: Permission, world: World, player: string): seq<string>
  {
    p.playerGroups(world.name, player)
  }

  function PlayerGroupsOfPlayer(p: Permission, player: Player): seq<string>
  {
    p.playerGroups(player.world.name, player.name)
  }

  function PrimaryGroupAtWorld(p: Permission, world: World, player: string): string
  {
    p.primaryGroup(world.name, player)
  }

  function PrimaryGroupOfPlayer(p: Permission, player: Player): string
  {
    p.primaryGroup(player.world.name, player.name)
  }

  // Prefix and suffix

  function PlayerPrefixAtWorld(p: Permission, world: World, player: string): string
  {
    p.playerPrefix(world.name, player)
  }

  function PlayerPrefixOfPlayer(p: Permission, player: Player): string
  {
    p.playerPrefix(player.world.name, player.name)
  }

  function SetPlayerPrefixAtWorld(world: World, player: string, prefix: string): Update
  {
    SetPlayerPrefix(world.name, player, prefix)
  }

  function SetPlayerPrefixOfPlayer(player: Player, prefix: string): Update
  {
    SetPlayerPrefix(player.world.name, player.name, prefix)
  }

  function PlayerSuffixAtWorld(p: Permission, world: World, player: string): string
  {
    p.playerSuffix(world.name, player)
  }

  function PlayerSuffixOfPlayer(p: Permission, player: Player): string
  {
    p.playerSuffix(player.world.name, player.name)
  }

  function SetPlayerSuffixAtWorld(world: World, player: string, suffix: string): Update
  {
    SetPlayerSuffix(world.name, player, suffix)
  }

  function SetPlayerSuffixOfPlayer(player: Player, suffix: string): Update
  {
    SetPlayerSuffix(player.world.name, player.name, suffix)
  }

  /** has is playerHas under another name, in all three forms: whatever the
      provider answers, the two families never disagree. */
  lemma HasIsPlayerHas(p: Permission, world: World, player: Player, name: string, node: string)
    ensures Has(p, world.name, name, node) == p.playerHas(world.name, name, node)
    ensures HasAtWorld(p, world, name, node) == PlayerHasAtWorld(p, world, name, node)
    ensures HasOfPlayer(p, player, node) == PlayerHasOfPlayer(p, player, node)
  {
  }

  /** A World overload asks the primary question of the world's name; a
      Player overload asks it of the player's world's name and the player's
      own name. Other arguments are passed on unchanged. */
  lemma PlayerNodeOverloads(p: Permission, world: World, player: Player, node: string)
    ensures PlayerHasAtWorld(p, world, player.name, node) == p.playerHas(world.name, player.name, node)
    ensures PlayerHasOfPlayer(p, player, node) == PlayerHasAtWorld(p, player.world, player.name, node)
    ensures PlayerAddAtWorld(p, world, player.name, node) == p.playerAdd(world.name, player.name, node)
    ensures PlayerAddOfPlayer(p, player, node) == PlayerAddAtWorld(p, player.world, player.name, node)
    ensures PlayerRemoveAtWorld(p, world, player.name, node) == p.playerRemove(world.name, player.name, node)
    ensures PlayerRemoveOfPlayer(p, player, node) == PlayerRemoveAtWorld(p, player.world, player.name, node)
  {
  }

  lemma GroupNodeOverloads(p: Permission, world: World, group: string, node: string)
    ensures GroupHasAtWorld(p, world, group, node) == p.groupHas(world.name, group, node)
    ensures GroupAddAtWorld(p, world, group, node) == p.groupAdd(world.name, group, node)
    ensures GroupRemoveAtWorld(p, world, group, node) == p.groupRemove(world.name, group, node)
  {
  }

  lemma MembershipOverloads(p: Permission, world: World, player: Player, group: string)
    ensures PlayerInGroupAtWorld(p, world, player.name, group) == p.playerInGroup(world.name, player.name, group)
    ensures PlayerInGroupOfPlayer(p, player, group) == PlayerInGroupAtWorld(p, player.world, player.name, group)
    ensures PlayerAddGroupAtWorld(p, world, player.name, group) == p.playerAddGroup(world.name, player.name, group)
    ensures PlayerAddGroupOfPlayer(p, player, group) == PlayerAddGroupAtWorld(p, player.world, player.name, group)
    ensures PlayerRemoveGroupAtWorld(p, world, player.name, group) == p.playerRemoveGroup(world.name, player.name, group)
    ensures PlayerRemoveGroupOfPlayer(p, player, group) == PlayerRemoveGroupAtWorld(p, player.world, player.name, group)
  {
  }

  /** The info-node getters pass node and default value through unchanged. */
  lemma InfoGetterOverloads(p: Permission, world: World, player: Player, group: string, node: string,
                            i: int, d: real, b: bool, s: string)
    ensures PlayerInfoIntegerAtWorld(p, world, player.name, node, i) == p.playerInfoInteger(world.name, player.name, node, i)
    ensures PlayerInfoIntegerOfPlayer(p, player, node, i) == PlayerInfoIntegerAtWorld(p, player.world, player.name, node, i)
    ensures GroupInfoIntegerAtWorld(p, world, group, node, i) == p.groupInfoInteger(world.name, group, node, i)
    ensures PlayerInfoDoubleAtWorld(p, world, player.name, node, d) == p.playerInfoDouble(world.name, player.name, node, d)
    ensures PlayerInfoDoubleOfPlayer(p, player, node, d) == PlayerInfoDoubleAtWorld(p, player.world, player.name, node, d)
    ensures GroupInfoDoubleAtWorld(p, world, group, node, d) == p.groupInfoDouble(world.name, group, node, d)
    ensures PlayerInfoBooleanAtWorld(p, world, player.name, node, b) == p.playerInfoBoolean(world.name, player.name, node, b)
    ensures PlayerInfoBooleanOfPlayer(p, player, node, b) == PlayerInfoBooleanAtWorld(p, player.world, player.name, node, b)
    ensures GroupInfoBooleanAtWorld(p, world, group, node, b) == p.groupInfoBoolean(world.name, group, node, b)
    ensures PlayerInfoStringAtWorld(p, world, player.name, node, s) == p.playerInfoString(world.name, player.name, node, s)
    ensures PlayerInfoStringOfPlayer(p, player, node, s) == PlayerInfoStringAtWorld(p, player.world, player.name, node, s)
    ensures GroupInfoStringAtWorld(p, world, group, node, s) == p.groupInfoString(world.name, group, node, s)
  {
  }

  /** Every setter overload hands the primary setter the same call: the World
      form and the Player form of one setter are indistinguishable to the
      provider when they name the same world and player. */
  lemma InfoSetterOverloads(world: World, player: Player, group: string, node: string,
                            i: int, d: real, b: bool, s: string)
    ensures SetPlayerInfoIntegerOfPlayer(player, node, i) == SetPlayerInfoIntegerAtWorld(player.world, player.name, node, i)
    ensures SetPlayerInfoIntegerAtWorld(world, player.name, node, i) == SetPlayerInfoInteger(world.name, player.name, node, i)
    ensures SetGroupInfoIntegerAtWorld(world, group, node, i) == SetGroupInfoInteger(world.name, group, node, i)
    ensures SetPlayerInfoDoubleOfPlayer(player, node, d) == SetPlayerInfoDoubleAtWorld(player.world, player.name, node, d)
    ensures SetPlayerInfoDoubleAtWorld(world, player.name, node, d) == SetPlayerInfoDouble(world.name, player.name, node, d)
    ensures SetGroupInfoDoubleAtWorld(world, group, node, d) == SetGroupInfoDouble(world.name, group, node, d)
    ensures SetPlayerInfoBooleanOfPlayer(player, node, b) == SetPlayerInfoBooleanAtWorld(player.world, player.name, node, b)
    ensures SetPlayerInfoBooleanAtWorld(world, player.name, node, b) == SetPlayerInfoBoolean(world.name, player.name, node, b)
    ensures SetGroupInfoBooleanAtWorld(world, group, node, b) == SetGroupInfoBoolean(world.name, group, node, b)
    ensures SetPlayerInfoStringOfPlayer(player, node, s) == SetPlayerInfoStringAtWorld(player.world, player.name, node, s)
    ensures SetPlayerInfoStringAtWorld(world, player.name, node, s) == SetPlayerInfoString(world.name, player.name, node, s)
    ensures SetGroupInfoStringAtWorld(world, group, node, s) == SetGroupInfoString(world.name, group, node, s)
  {
  }

  lemma GroupListOverloads(p: Permission, world: World, player: Player)
    ensures PlayerGroupsAtWorld(p, world, player.name) == p.playerGroups(world.name, player.name)
    ensures PlayerGroupsOfPlayer(p, player) == PlayerGroupsAtWorld(p, player.world, player.name)
    ensures PrimaryGroupAtWorld(p, world, player.name) == p.primaryGroup(world.name, player.name)
    ensures PrimaryGroupOfPlayer(p, player) == PrimaryGroupAtWorld(p, player.world, player.name)
  {
  }

  /** Prefix and suffix overloads return the primary answer unchanged, and the
      setters hand on the new text unchanged. */
  lemma AffixOverloads(p: Permission, world: World, player: Player, text: string)
    ensures PlayerPrefixAtWorld(p, world, player.name) == p.playerPrefix(world.name, player.name)
    ensures PlayerPrefixOfPlayer(p, player) == PlayerPrefixAtWorld(p, player.world, player.name)
    ensures PlayerSuffixAtWorld(p, world, player.name) == p.playerSuffix(world.name, player.name)
    ensures PlayerSuffixOfPlayer(p, player) == PlayerSuffixAtWorld(p, player.world, player.name)
    ensures SetPlayerPrefixAtWorld(world, player.name, text) == SetPlayerPrefix(world.name, player.name, text)
    ensures SetPlayerPrefixOfPlayer(player, text) == SetPlayerPrefixAtWorld(player.world, player.name, text)
    ensures SetPlayerSuffixAtWorld(world, player.name, text) == SetPlayerSuffix(world.name, player.name, text)
    ensures SetPlayerSuffixOfPlayer(player, text) == SetPlayerSuffixAtWorld(player.world, player.name, text)
  {
  }
}
