# Vault: provider registry, resolution and two adapters, in Dafny

Vault is a Bukkit plugin that brokers between plugins that need an economy or
a permission system and the third-party plugins that provide one. At start-up
and on `/vault reload` it probes the classpath for the backends it knows. It
wraps each one it finds in an adapter and registers the adapter in a per-service
`TreeMap` under a fixed integer key. `getEconomy` / `getPermission` return the
pinned provider when one is set. Otherwise they return the first registered
provider that reports itself enabled. Adapters hook and unhook their backend
as plugin enable and disable events arrive, so that answer changes at run time.

This project models:

- `registry.dfy`, module `ProviderRegistry`. The registry is a class holding
  `providers: map<int, Provider>` and the optional pin `active`. Providers
  are objects with a live `enabled` flag. `Get` is the iterator walk of
  `getEconomy`/`getPermission`, proved against the specification function
  `Resolve`: the pin, otherwise the provider at the least key whose provider
  is enabled, otherwise nothing.
- `vault.dfy`, module `Vault`, covering:
  - `packageExists`, over a set of loadable class names;
  - the backend tables of `loadEconomy` and `loadPermission`, with their keys and class lists;
  - the two load routines and `reload`;
  - the sender gate and subcommand dispatch of `onCommand`.
- `permission.dfy`, module `PermissionContract`. The abstract `Permission`
  class becomes a record of its abstract operations. Every World- and
  Player-taking overload is a function, and lemmas show that each one asks
  the primary `(worldName, name, …)` question.
- `chat_towny.dfy`, module `TownyChat`, covering:
  - the Towny chat adapter's `towny` handle and its enable and disable listener;
  - the prefix, suffix and town-tag lookups;
  - the operations it refuses.
- `economy_mineconomy.dfy`, module `MineConomyEconomy`, covering:
  - the MineConomy adapter's `econ` handle and listener;
  - the ledger operations `has`, `withdrawPlayer`, `depositPlayer`, `hasAccount` and `createPlayerAccount` over MineConomy's accounts table;
  - the bank stubs.
- `wrappers.dfy` holds `Option` and `Result`.

**Resolution order.** `getEconomy` walks `econs.values()` of a `TreeMap` in
ascending key order and returns the first enabled provider, so the smallest
enabled key wins: iConomy 5 at key 7 beats 3co at key 11 while both are
enabled. The lemma `Vault.SmallestEnabledKeyWins` states this example for
every enabled/disabled combination of the two, and Dafny proves it.

**Environment as parameters.**

- Class loading is a set `loadable` of class names.
- Whether a newly built backend adapter starts out enabled is a set `running` of backend names.
- Plugin-manager lookups are the `lookup` argument of the adapters' constructors and enable handlers.
- A disable event is the name of the plugin going down.

## Model

| member | source | states |
|---|---|---|
| ProviderRegistry.Registry.Get | src/net/milkbowl/vault/Vault.java:75-88 | the result is the pin when set; otherwise the provider at the least key whose provider is enabled; otherwise none |
| ProviderRegistry.PinnedWins | src/net/milkbowl/vault/Vault.java:85-87 | a set pin is returned whatever the map holds |
| ProviderRegistry.ResolveNoneIffNoneEnabled | src/net/milkbowl/vault/Vault.java:76-84 | without a pin, nothing is returned exactly when no registered provider is enabled |
| ProviderRegistry.ResolveReturnsLeastEnabled | src/net/milkbowl/vault/Vault.java:76-83 | a returned provider is registered and enabled, and every provider at a smaller key is disabled |
| ProviderRegistry.ResolvePicksLeastEnabled | src/net/milkbowl/vault/Vault.java:76-83 | conversely, an enabled provider with no enabled provider below it is the one returned |
| ProviderRegistry.Registry.Put | src/net/milkbowl/vault/Vault.java:116 | put replaces any provider at the key, changes no other key, and leaves the pin alone |
| ProviderRegistry.Registry.Clear | src/net/milkbowl/vault/Vault.java:183 | clear empties the map and leaves the pin alone |
| Vault.Vault.constructor | src/net/milkbowl/vault/Vault.java:49-54 | both maps start empty and both pins null, in two distinct registries |
| Vault.Vault.GetEconomy | src/net/milkbowl/vault/Vault.java:75-88 | getEconomy returns the resolution of the economy registry |
| Vault.Vault.GetPermission | src/net/milkbowl/vault/Vault.java:94-107 | getPermission returns the resolution of the permission registry |
| Vault.PackageExists | src/net/milkbowl/vault/Vault.java:236-245 | true exactly when every listed class is loadable, so an empty list gives true |
| Vault.LoadBackend | src/net/milkbowl/vault/Vault.java:114-120 | an adapter is built exactly when the backend's classes all resolve; it is then put at the backend's key and nothing else changes |
| Vault.Vault.LoadEconomy | src/net/milkbowl/vault/Vault.java:112-157 | the keys grow by exactly the detected backends; each detected backend has a fresh adapter of its own at its key; every other entry and the pin are unchanged |
| Vault.EconomyDetection | src/net/milkbowl/vault/Vault.java:113-156 | the economy keys are 3co 11, BOSEconomy 10, Essentials 9, iConomy 4 8, iConomy 5 7, each present exactly when its class list resolves |
| Vault.Vault.LoadPermission | src/net/milkbowl/vault/Vault.java:162-180 | the same for PermissionsEx and Permissions: only detected backends are added, other entries and the pin are unchanged |
| Vault.PermissionDetection | src/net/milkbowl/vault/Vault.java:163-179 | PermissionsEx takes key 8 and Permissions key 9, each exactly when its class resolves |
| Vault.Vault.Reload | src/net/milkbowl/vault/Vault.java:182-190 | afterwards both pins are null and each map holds exactly the fresh adapters of the detected backends; nothing from before survives |
| Vault.ReloadedEconomyPrefersIConomy5 | src/net/milkbowl/vault/Vault.java:150-152 | after a reload that found a running iConomy 5, getEconomy returns the adapter at iConomy 5's key 7, named "iConomy 5", whatever else was found |
| Vault.Vault.OnCommand | src/net/milkbowl/vault/Vault.java:193-227 | non-op players and non-console senders are ignored; `info` reports both active providers or fails on a null one; `reload` reloads; anything else shows help; only `reload` changes the registries |
| Vault.DisablingLeastFallsBack | src/net/milkbowl/vault/Vault.java:76-83 | resolution is a live query: once the iConomy 5 adapter at key 7 goes disabled, getEconomy returns the enabled 3co adapter at key 11 with no change to the map |
| Vault.SmallestEnabledKeyWins | src/net/milkbowl/vault/Vault.java:76-83 | with iConomy 5 at key 7 and 3co at key 11 and no pin, iConomy 5 is returned while enabled, otherwise 3co while enabled, otherwise nothing |
| Vault.GateAdmitsOnlyOpsAndConsole | src/net/milkbowl/vault/Vault.java:194-205 | the gate admits exactly operator players and the console |
| Vault.EqualsIgnoreCaseIsLoweredEquality | src/net/milkbowl/vault/Vault.java:209 | equalsIgnoreCase holds exactly when the lower-cased strings are equal |
| Vault.ParseIgnoresCase | src/net/milkbowl/vault/Vault.java:207-219 | with label `vault`, an argument lower-casing to `info` or `reload` selects that branch; every other input selects help |
| PermissionContract.HasIsPlayerHas | src/net/milkbowl/vault/permission/Permission.java:46-67 | every form of has gives the same answer as the matching form of playerHas |
| PermissionContract.PlayerNodeOverloads | src/net/milkbowl/vault/permission/Permission.java:84-151 | the World and Player forms of playerHas, playerAdd and playerRemove ask the string form with the world's name and the player's name, and pass the node unchanged |
| PermissionContract.GroupNodeOverloads | src/net/milkbowl/vault/permission/Permission.java:168-208 | groupHas, groupAdd and groupRemove at a World ask the string form with the world's name |
| PermissionContract.MembershipOverloads | src/net/milkbowl/vault/permission/Permission.java:225-292 | the playerInGroup, playerAddGroup and playerRemoveGroup overloads pass the group through unchanged |
| PermissionContract.InfoGetterOverloads | src/net/milkbowl/vault/permission/Permission.java:311-669 | the info-node getters of all four value types pass node and default value through unchanged |
| PermissionContract.InfoSetterOverloads | src/net/milkbowl/vault/permission/Permission.java:340-688 | each info-node setter's World form is the primary setter called with the world's name, and its Player form is the World form at the player's world, for all four value types |
| PermissionContract.GroupListOverloads | src/net/milkbowl/vault/permission/Permission.java:703-738 | getPlayerGroups and getPrimaryGroup overloads return the primary answer unchanged |
| PermissionContract.AffixOverloads | src/net/milkbowl/vault/permission/Permission.java:753-838 | prefix and suffix getters return the primary answer unchanged; the setters hand on the new text unchanged |
| TownyChat.ChatTowny.constructor | src/net/milkbowl/vault/chat/plugins/Chat_Towny.java:38-44 | the adapter hooks at once when Towny is present, and otherwise starts unhooked |
| TownyChat.ChatTowny.GetName | src/net/milkbowl/vault/chat/plugins/Chat_Towny.java:74-77 | the name is always "Towny" |
| TownyChat.ChatTowny.IsEnabled | src/net/milkbowl/vault/chat/plugins/Chat_Towny.java:79-81 | the adapter is enabled exactly while its Towny handle is set |
| TownyChat.ChatTowny.OnPluginEnable | src/net/milkbowl/vault/chat/plugins/Chat_Towny.java:54-62 | an enable event changes nothing while hooked; when unhooked it stores the lookup, null included |
| TownyChat.ChatTowny.OnPluginDisable | src/net/milkbowl/vault/chat/plugins/Chat_Towny.java:64-71 | the adapter is unhooked afterwards exactly when it was unhooked before or the plugin going down is "Towny" |
| TownyChat.HookSurvivesOtherEvents | src/net/milkbowl/vault/chat/plugins/Chat_Towny.java:54-71 | a hooked adapter keeps the same handle through any events that do not disable "Towny" |
| TownyChat.DisableThenEnableRehooks | src/net/milkbowl/vault/chat/plugins/Chat_Towny.java:54-71 | after Towny goes down, the next enable event hooks exactly what the lookup then answers |
| TownyChat.ChatTowny.PlayerPrefix | src/net/milkbowl/vault/chat/plugins/Chat_Towny.java:85-92 | succeeds exactly when hooked, with the resident's title or "" for an unregistered name; unhooked it fails with a null dereference |
| TownyChat.ChatTowny.PlayerSuffix | src/net/milkbowl/vault/chat/plugins/Chat_Towny.java:100-107 | the same with the resident's surname |
| TownyChat.ChatTowny.GroupPrefix | src/net/milkbowl/vault/chat/plugins/Chat_Towny.java:115-121 | the same with the tag of the town named by the group |
| TownyChat.LookupsIgnoreWorld | src/net/milkbowl/vault/chat/plugins/Chat_Towny.java:85-121 | none of the three lookups depends on the world argument |
| TownyChat.DisableBreaksLookups | src/net/milkbowl/vault/chat/plugins/Chat_Towny.java:64-121 | right after Towny goes down, the prefix, suffix and town-tag lookups all fail with a null dereference |
| TownyChat.UnhookedStaysUnhooked | src/net/milkbowl/vault/chat/plugins/Chat_Towny.java:54-71 | an unhooked adapter stays unhooked through any events that are not enable events |
| TownyChat.UnhookedUntilEnabled | src/net/milkbowl/vault/chat/plugins/Chat_Towny.java:54-71 | after Towny goes down the handle stays empty, so every lookup keeps failing, until the next enable event |
| TownyChat.Refusal | src/net/milkbowl/vault/chat/plugins/Chat_Towny.java:94-216 | every setter, getGroupSuffix and every info-node operation throws UnsupportedOperationException; the message says "info nodes" exactly for the sixteen info-node operations, "altering prefixes" for the two prefix setters, "altering suffixes" for the two suffix setters, and "group/town suffixes" for getGroupSuffix |
| MineConomyEconomy.EconomyMineConomy.constructor | src/net/milkbowl/vault/economy/plugins/Economy_MineConomy.java:28-40 | hooks at once only when MineConomy is present and enabled |
| MineConomyEconomy.EconomyMineConomy.GetName | src/net/milkbowl/vault/economy/plugins/Economy_MineConomy.java:77-80 | the name is always "MineConomy" |
| MineConomyEconomy.EconomyMineConomy.IsEnabled | src/net/milkbowl/vault/economy/plugins/Economy_MineConomy.java:73-75 | the adapter is enabled exactly while its MineConomy handle is set |
| MineConomyEconomy.EconomyMineConomy.OnPluginEnable | src/net/milkbowl/vault/economy/plugins/Economy_MineConomy.java:49-59 | afterwards the adapter is hooked exactly when it was already hooked or the lookup is present and enabled; an existing handle is kept |
| MineConomyEconomy.EconomyMineConomy.OnPluginDisable | src/net/milkbowl/vault/economy/plugins/Economy_MineConomy.java:61-69 | the adapter is unhooked afterwards exactly when it was before or the plugin going down is "MineConomy" |
| MineConomyEconomy.HookedOnlyWhileEnabled | src/net/milkbowl/vault/economy/plugins/Economy_MineConomy.java:33-59 | over any event sequence, the handle only ever holds a plugin that was enabled when hooked |
| MineConomyEconomy.HookSurvivesOtherEvents | src/net/milkbowl/vault/economy/plugins/Economy_MineConomy.java:50-69 | a hooked adapter keeps its handle through any events that do not disable "MineConomy" |
| MineConomyEconomy.EconomyMineConomy.GetBalance | src/net/milkbowl/vault/economy/plugins/Economy_MineConomy.java:88-90 | an existing account's balance, and 0 for a player without an account |
| MineConomyEconomy.EconomyMineConomy.Has | src/net/milkbowl/vault/economy/plugins/Economy_MineConomy.java:92-95 | the balance covers the amount; for a non-negative amount, exactly when withdrawPlayer would succeed |
| MineConomyEconomy.Withdrawal | src/net/milkbowl/vault/economy/plugins/Economy_MineConomy.java:98-109 | succeeds exactly for a non-negative amount the balance covers, moving that amount and leaving balance minus amount with only the player's entry changed; a negative amount or insufficient funds fail with amount 0, the current balance, the matching message and the ledger unchanged |
| MineConomyEconomy.EconomyMineConomy.WithdrawPlayer | src/net/milkbowl/vault/economy/plugins/Economy_MineConomy.java:98-109 | the response and new accounts table are those of Withdrawal; success exactly when the amount is non-negative and has() held before |
| MineConomyEconomy.Deposit | src/net/milkbowl/vault/economy/plugins/Economy_MineConomy.java:112-121 | fails with the ledger unchanged exactly for a negative amount; otherwise stores balance plus amount with only the player's entry changed |
| MineConomyEconomy.EconomyMineConomy.DepositPlayer | src/net/milkbowl/vault/economy/plugins/Economy_MineConomy.java:112-121 | the response and new accounts table are those of Deposit |
| MineConomyEconomy.DepositThenWithdraw | src/net/milkbowl/vault/economy/plugins/Economy_MineConomy.java:98-121 | in exact arithmetic (reals, not doubles), depositing then withdrawing the same amount restores an existing, non-overdrawn ledger |
| MineConomyEconomy.CoversIffWithdrawalSucceeds | src/net/milkbowl/vault/economy/plugins/Economy_MineConomy.java:92-109 | for a non-negative amount, has holds exactly when withdrawPlayer succeeds |
| MineConomyEconomy.OperationsKeepSolvent | src/net/milkbowl/vault/economy/plugins/Economy_MineConomy.java:98-121 | withdrawals, deposits and account creation never make a balance negative |
| MineConomyEconomy.AccountCreation | src/net/milkbowl/vault/economy/plugins/Economy_MineConomy.java:178-185 | answers true exactly when the player had no account; the account then exists, no other entry changes, and no balance reads differently |
| MineConomyEconomy.EconomyMineConomy.HasAccount | src/net/milkbowl/vault/economy/plugins/Economy_MineConomy.java:173-176 | the player has an account exactly when createPlayerAccount would answer false; without one the balance reads as 0 |
| MineConomyEconomy.EconomyMineConomy.CreatePlayerAccount | src/net/milkbowl/vault/economy/plugins/Economy_MineConomy.java:173-185 | the answer and new accounts table are those of AccountCreation, and hasAccount holds afterwards |
| MineConomyEconomy.CreationIdempotent | src/net/milkbowl/vault/economy/plugins/Economy_MineConomy.java:178-185 | a second creation of the same account answers false and changes nothing |
| MineConomyEconomy.Bank | src/net/milkbowl/vault/economy/plugins/Economy_MineConomy.java:123-161 | every bank operation answers NOT_IMPLEMENTED with amount 0, balance 0 and the same message, whatever its arguments |
| MineConomyEconomy.HasBankSupport | src/net/milkbowl/vault/economy/plugins/Economy_MineConomy.java:168-171 | there is no bank support |
| MineConomyEconomy.GetBanks | src/net/milkbowl/vault/economy/plugins/Economy_MineConomy.java:163-166 | the bank list is empty |

## Left out

- Logging, and the text of the messages `onCommand` sends, are left out. The outcome of a command is a value instead.
- `onEnable`/`onDisable`, command-executor wiring and event registration with the plugin manager are left out. Events are method calls carrying the lookup result or the name of the plugin going down.
- `Class.forName` reflection is not modelled. `packageExists` tests membership in a set of loadable class names.
- The adapters Vault itself registers are opaque `Provider` objects with a name and a live enabled flag:
  - Economy_3co, Economy_BOSE, Economy_Essentials, Economy_iConomy4 and Economy_iConomy5;
  - Permission_PermissionsEx and Permission_Permissions.
  Their sources are not part of this model. Whether one starts enabled is given by the `running` set. The `Chat` base class is not part of this model either.
- Towny's universe and MineConomy's `Accounting` library are not part of this model. They are partial maps:
  - resident to title and surname, and town to tag;
  - player to balance.
- `MineConomyEconomy.Balance`: a player without an account is assumed to read as balance 0, and `setBalance` is assumed to create the account.
- Money is `real`; `double` rounding, NaN and the infinities are not modelled. With a NaN amount, `depositPlayer` passes the negative-amount test, stores NaN and answers SUCCESS, and `withdrawPlayer` fails with "Insufficient funds"; no `real` amount behaves that way. `format` (`String.valueOf`) is left out. The Permission contract's `int` values are unbounded `int`.
- `Collections.synchronizedMap` and concurrent interleavings of events and lookups are left out. Everything is sequential.
- `World` and `Player` objects appear only through their names, so the overloads taking them can see nothing else of them.
- `Vault.EqualsIgnoreCase`: case folding covers ASCII letters only, not Java's full Unicode folding.
- The abstract `Permission` class is a record of its operations. Its void setters are the `Update` call they receive, because the effect on the backend is not visible in the contract.
- `Vault.Vault.OnCommand`: `info` stops at the first null provider: after the header when the economy provider is null, and after the header and the economy line when only the permission provider is null. The model records only that the command failed.
- The registered adapters' `getName()` is assumed to return the backend names the load routines log: "3co", "BOSEconomy", "Essentials Economy", "iConomy 4", "iConomy 5", "PermissionsEx" and "Permissions (Yetti)". Those adapters' sources are not part of this model.
- `MineConomyEconomy.DepositThenWithdraw`: holds in exact arithmetic only; with `double` rounding a deposit followed by the same withdrawal need not restore the balance (0.1 + 0.2 - 0.2 is not 0.1).
- The source has no way to set the pins `activeEconomy`/`activePermission`, and no way to unregister a provider. The model has none either. Only `reload` clears the pins.
