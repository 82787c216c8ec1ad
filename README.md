# Arte da Guerra lobby, modelled in Dafny

Arte da Guerra is a Minecraft server plugin (Bukkit) that adds a lobby of
seven historical eras. Players arrive at a round quartz platform. Around it
stand seven themed era platforms. Players travel with `/lobby`, `/era <n>` and
`/eras`, or through a chest menu opened with a compass. This project models
the plugin's decision logic and proves properties of it:

- the per-player teleport rate limiter: the check, the update, and the
  delayed removal as an explicit step;
- the guard chains of the lobby and era teleports;
- the era access rule and the era material tables;
- the block footprints of the central platform and the era areas;
- the command dispatch of `/lobby`, `/era`, `/eras` and `/artedaguerra`;
- the menu layout and click routing;
- the lobby protection policy;
- the plugin's enable and disable sequence.

The game server is reduced to values passed in as parameters:

- a player is an id, the name of the world they stand in, and the set of
  permission nodes they hold;
- the configuration is a map from dotted paths to values, with the bundled
  defaults already applied;
- the loaded worlds are a set of names;
- the clock is a `now` argument in milliseconds;
- block writes are a map from block position to material.

Modules, one file each:

| module | file | models |
|---|---|---|
| `Wrappers` | `wrappers.dfy` | `Option`, Java's `null` |
| `Text` | `text.dfy` | int to string, `Integer.parseInt`, `toLowerCase`, `equalsIgnoreCase`, `contains`, 32-bit narrowing |
| `Host` | `host.dfy` | players, senders, positions, configuration access, materials, item stacks |
| `Cooldown` | `cooldown.dfy` | the cooldown map's transitions and a rate-limit theorem over event traces |
| `Platforms` | `platforms.dfy` | `criarPlataformaCentral`, `criarAreaTematica`, `criarEstruturaTematica`, `obterMaterialEra` |
| `Lobby` | `lobby.dfy` | `LobbyManager` as a class, with the teleport decisions as functions |
| `Commands` | `commands.dfy` | `LobbyCommand` |
| `Gui` | `gui.dfy` | `LobbyGUI`: menus as 27-slot arrays and click routing |
| `Listener` | `listener.dfy` | `LobbyListener` |
| `Core` | `core.dfy` | `ArteDaGuerraCore` |

Where the source behaves surprisingly, the model keeps the behaviour as
written and a lemma states it:

- The cooldown window `teleportCooldown * 1000` is 32-bit `int` arithmetic. It
  wraps above 2147483 seconds (`Cooldown.WindowMillisWrapsAboveLimit`).
- The delayed removal clears a player's entry even if that entry was
  refreshed after the removal was scheduled
  (`Cooldown.StaleRemovalCutsRefreshedCooldown`).
- Menu clicks are matched on the substring `"Era " + i`, lowest `i` first. An
  era whose configured name contains a lower era's label is routed to that
  lower era (`Gui.MisleadingEraNameIsMisrouted`).
- `/artedaguerra reload` re-reads the configuration file but does not reload
  the lobby manager's settings. `Core.Plugin.OnCommand` modifies only the
  plugin's configuration.

## Model

| member | source | states |
|---|---|---|
| `Text.Int32Wrap` | src/main/java/br/com/artedaguerra/lobby/LobbyManager.java:372-375 | Java's narrowing to `int` gives a value congruent to its input modulo 2^32 and leaves values already in range unchanged |
| `Text.ToLower` | src/main/java/br/com/artedaguerra/lobby/LobbyCommand.java:31 | lower-casing keeps the length and lower-cases each character |
| `Text.ParseInt` | src/main/java/br/com/artedaguerra/lobby/LobbyCommand.java:77 | `Integer.parseInt` as the function the parse lemmas below are about; its contract: a result needs a non-empty string |
| `Text.ParseIntOfIntToString` | src/main/java/br/com/artedaguerra/lobby/LobbyCommand.java:76-77 | `Integer.parseInt` of the decimal rendering of any `int` gives that `int` back |
| `Text.ParseIntOnlyNumerals` | src/main/java/br/com/artedaguerra/lobby/LobbyCommand.java:76-89 | only an optional sign followed by one or more digits parses, and such a numeral fails only when its value is outside the `int` range |
| `Text.ParseIntRejectsNonNumerals` | src/main/java/br/com/artedaguerra/lobby/LobbyCommand.java:76-89 | a string that contains no digit makes `Integer.parseInt` fail |
| `Text.EqualsIgnoreCaseIsLowerEquality` | src/main/java/br/com/artedaguerra/ArteDaGuerraCore.java:123 | `equalsIgnoreCase` holds exactly when the lower-cased strings are equal |
| `Host.ChildMakesSectionPresent` | src/main/java/br/com/artedaguerra/ArteDaGuerraCore.java:101-103 | a value stored under a section makes `contains` true for that section |
| `Cooldown.WindowMillisExact` | src/main/java/br/com/artedaguerra/lobby/LobbyManager.java:372 | for cooldowns up to 2147483 seconds the window is exactly `seconds * 1000` ms |
| `Cooldown.WindowMillisWrapsAboveLimit` | src/main/java/br/com/artedaguerra/lobby/LobbyManager.java:372 | one second more and the 32-bit product wraps to a negative window |
| `Cooldown.Check` | src/main/java/br/com/artedaguerra/lobby/LobbyManager.java:368-382 | `verificarCooldown` as a function of the map, the setting, the player and the clock; its properties are the `Cooldown` lemmas below |
| `Cooldown.ReportedSeconds` | src/main/java/br/com/artedaguerra/lobby/LobbyManager.java:375 | the wait shown to a refused player; bounded by `Cooldown.ReportedSecondsCoverRemaining` |
| `Cooldown.Apply` | src/main/java/br/com/artedaguerra/lobby/LobbyManager.java:387-388 | the map update of `aplicarCooldown`; stated by `Cooldown.ApplyChangesOnlyOneEntry` and `Cooldown.CheckAfterApply` |
| `Cooldown.Expire` | src/main/java/br/com/artedaguerra/lobby/LobbyManager.java:391-396 | the scheduled removal of one entry; stated by `Cooldown.OtherPlayersUnaffected` and `Cooldown.StaleRemovalCutsRefreshedCooldown` |
| `Cooldown.NoEntryPasses` | src/main/java/br/com/artedaguerra/lobby/LobbyManager.java:368-382 | a player with no entry in the map always passes the check |
| `Cooldown.CheckFailsIffWindowOpen` | src/main/java/br/com/artedaguerra/lobby/LobbyManager.java:371-378 | with a stored time `t`, the check fails iff `t + window - now > 0` |
| `Cooldown.ReportedSecondsCoverRemaining` | src/main/java/br/com/artedaguerra/lobby/LobbyManager.java:375 | the reported wait `remaining / 1000 + 1` is at least 1 and bounds the remaining time from above, within one second |
| `Cooldown.ReportedWaitCoversWindow` | src/main/java/br/com/artedaguerra/lobby/LobbyManager.java:371-378 | a refused player is told to wait at least one second, and waiting that long reaches the end of the window |
| `Cooldown.CheckAfterApply` | src/main/java/br/com/artedaguerra/lobby/LobbyManager.java:368-388 | after a teleport at `t` the same player passes again exactly from `t + window` on |
| `Cooldown.OtherPlayersUnaffected` | src/main/java/br/com/artedaguerra/lobby/LobbyManager.java:387-396 | recording or removing one player's entry leaves every other player's check unchanged |
| `Cooldown.ApplyChangesOnlyOneEntry` | src/main/java/br/com/artedaguerra/lobby/LobbyManager.java:387-388 | `aplicarCooldown` sets the player's entry to `now` and changes no other key |
| `Cooldown.StaleRemovalCutsRefreshedCooldown` | src/main/java/br/com/artedaguerra/lobby/LobbyManager.java:387-396 | the scheduled removal frees the player even after a later teleport refreshed the entry |
| `Cooldown.TeleportsAreSpaced` | src/main/java/br/com/artedaguerra/lobby/LobbyManager.java:368-397 | over any run of attempts with no removal, one player's successful teleports are at least one window apart, and the first is at least one window after the stored entry |
| `Platforms.EraBlockMaterialTotal` | src/main/java/br/com/artedaguerra/lobby/LobbyManager.java:220-231 | the seven eras get seven different platform materials; every other number gets stone |
| `Platforms.EraBlockMaterial` | src/main/java/br/com/artedaguerra/lobby/LobbyManager.java:220-231 | the platform material of an era; stated by `Platforms.EraBlockMaterialTotal` |
| `Platforms.CentralPlatform` | src/main/java/br/com/artedaguerra/lobby/LobbyManager.java:168-188 | the writes cover exactly the disc `x*x + z*z <= 25` one block below the spawn, in quartz, plus a beacon in the spawn block |
| `Platforms.DiscFitsLoopBounds` | src/main/java/br/com/artedaguerra/lobby/LobbyManager.java:175-178 | every offset within distance 5 lies inside the square the loops visit, so the platform is the whole disc |
| `Platforms.DiscSymmetric` | src/main/java/br/com/artedaguerra/lobby/LobbyManager.java:175-178 | the central disc is symmetric under mirroring and under swapping the axes |
| `Platforms.BeaconOnPlatformCentre` | src/main/java/br/com/artedaguerra/lobby/LobbyManager.java:170-187 | the beacon stands on the platform's centre block at the spawn's height and is not itself a platform block |
| `Platforms.StackBlocks` | src/main/java/br/com/artedaguerra/lobby/LobbyManager.java:253-262 | the loop writes the material on exactly the `count` blocks of the column and keeps every other write |
| `Platforms.ThemeStructure` | src/main/java/br/com/artedaguerra/lobby/LobbyManager.java:236-282 | the themed structure covers exactly the era's column and puts the column table's block at each height |
| `Platforms.EraArea` | src/main/java/br/com/artedaguerra/lobby/LobbyManager.java:193-215 | an era area is exactly the 7 by 7 platform in the era's material plus the themed column above it, and the column never overwrites the platform |
| `Lobby.EraAccessIff` | src/main/java/br/com/artedaguerra/lobby/LobbyManager.java:354-363 | access needs the permission `artedaguerra.era.<n>` and the flag `eras.era_<n>.desbloqueada` stored as `true`; a missing flag means locked |
| `Lobby.HasEraAccess` | src/main/java/br/com/artedaguerra/lobby/LobbyManager.java:354-363 | `verificarAcessoEra`; characterised by `Lobby.EraAccessIff` |
| `Lobby.EraName` | src/main/java/br/com/artedaguerra/lobby/LobbyManager.java:432-434 | `obterNomeEra`: the configured name with its default; used by the lines `Lobby.ListEras` states and the item `Gui.EraItemShowsAccess` states |
| `Lobby.EraPeriod` | src/main/java/br/com/artedaguerra/lobby/LobbyManager.java:439-441 | `obterPeriodoEra`: the configured period with its default; used by `Lobby.ListEras` and `Gui.EraItemShowsAccess` |
| `Lobby.NavigationInventory` | src/main/java/br/com/artedaguerra/lobby/LobbyManager.java:402-427 | the compass in slot 4 and the book in slot 8; `Listener.NavigationItemsOpenMenus` states that they open the two menus |
| `Lobby.LobbyTeleportResult` | src/main/java/br/com/artedaguerra/lobby/LobbyManager.java:287-308 | the outcome of `teletransportarParaLobby`: spawn guard, then cooldown; what the method `Lobby.LobbyManager.TeleportToLobby` is proved to return |
| `Lobby.EraTeleportResult` | src/main/java/br/com/artedaguerra/lobby/LobbyManager.java:313-349 | the outcome of `teletransportarParaEra`; characterised by `Lobby.EraTeleportArrivesIff` and `Lobby.EarlierGuardDecides` |
| `Lobby.EraTeleportArrivesIff` | src/main/java/br/com/artedaguerra/lobby/LobbyManager.java:313-349 | an era teleport arrives iff all five guards pass: range, access, cooldown, world configured, world loaded |
| `Lobby.EarlierGuardDecides` | src/main/java/br/com/artedaguerra/lobby/LobbyManager.java:313-326 | the first failing guard decides the outcome, whatever the later guards would see |
| `Lobby.NoTeleportWithinWindow` | src/main/java/br/com/artedaguerra/lobby/LobbyManager.java:287-349 | right after a successful teleport, every lobby or era teleport of the same player within the window is refused |
| `Lobby.ListEras` | src/main/java/br/com/artedaguerra/lobby/LobbyManager.java:446-459 | one line per era 1 to 7, with its name, period and whether the player may enter it |
| `Lobby.LobbyManager.constructor` | src/main/java/br/com/artedaguerra/lobby/LobbyManager.java:34-40 | empty maps, no spawn, and the four settings read with their defaults |
| `Lobby.LobbyManager.LoadSettings` | src/main/java/br/com/artedaguerra/lobby/LobbyManager.java:67-72 | the world name, cooldown, protection and navigation settings are read with their defaults `lobby`, 3, true and true |
| `Lobby.LobbyManager.ConfigureLobbySpawn` | src/main/java/br/com/artedaguerra/lobby/LobbyManager.java:77-94 | the spawn is set in the lobby world when the world exists or could be created; otherwise it stays as it was |
| `Lobby.LobbyManager.ConfigureEraLocations` | src/main/java/br/com/artedaguerra/lobby/LobbyManager.java:130-148 | without a spawn nothing changes; otherwise eras 1 to 7 get their ring positions in the lobby world and no other key changes |
| `Lobby.LobbyManager.BuildStructures` | src/main/java/br/com/artedaguerra/lobby/LobbyManager.java:153-163 | without a spawn nothing is written; otherwise the writes are the central platform and every located era's area, and each block holds the material of the last structure covering it |
| `Lobby.LobbyManager.Initialize` | src/main/java/br/com/artedaguerra/lobby/LobbyManager.java:45-52 | settings, then spawn, then era locations, then structures, with each step's result as above |
| `Lobby.LobbyManager.Finalize` | src/main/java/br/com/artedaguerra/lobby/LobbyManager.java:57-62 | the cooldown map and the era locations are emptied |
| `Lobby.LobbyManager.CheckCooldown` | src/main/java/br/com/artedaguerra/lobby/LobbyManager.java:368-382 | the method computes the cooldown check on the current map, and passes a player with no entry |
| `Lobby.LobbyManager.ApplyCooldown` | src/main/java/br/com/artedaguerra/lobby/LobbyManager.java:387-397 | records `now` for the player, schedules one removal, and keeps every entry covered by a pending removal |
| `Lobby.LobbyManager.RunRemoval` | src/main/java/br/com/artedaguerra/lobby/LobbyManager.java:391-396 | a pending removal deletes the player's entry unconditionally and is consumed |
| `Lobby.LobbyManager.TeleportToLobby` | src/main/java/br/com/artedaguerra/lobby/LobbyManager.java:287-308 | spawn unset or cooling down: refused and the map unchanged; otherwise arrives, with items if enabled, and records the cooldown |
| `Lobby.LobbyManager.TeleportToEra` | src/main/java/br/com/artedaguerra/lobby/LobbyManager.java:313-349 | the outcome is the guard chain's, and only an arrival records the cooldown |
| `Commands.NonPlayerOnlyGetsError` | src/main/java/br/com/artedaguerra/lobby/LobbyCommand.java:25-28 | a non-player sender gets the error and `true`, whatever the command |
| `Commands.DispatchCommand` | src/main/java/br/com/artedaguerra/lobby/LobbyCommand.java:24-46 | the branch `onCommand` takes; characterised by the `Commands` lemmas in this table |
| `Commands.EraAction` | src/main/java/br/com/artedaguerra/lobby/LobbyCommand.java:64-92 | the branch `executarComandoEra` takes; characterised by `Commands.EraPermissionBeforeArguments`, `Commands.EraTeleportNeedsValidArgument` and `Commands.EraNumeralReachesTeleport` |
| `Commands.LobbyAction` | src/main/java/br/com/artedaguerra/lobby/LobbyCommand.java:51-59 | `executarComandoLobby`; stated by `Commands.LobbyTeleportIffPermission` |
| `Commands.ErasAction` | src/main/java/br/com/artedaguerra/lobby/LobbyCommand.java:97-105 | `executarComandoEras`; stated by `Commands.ErasListIffPermission` |
| `Commands.UnhandledIffUnknownName` | src/main/java/br/com/artedaguerra/lobby/LobbyCommand.java:31-45 | `onCommand` returns false exactly for a player's command whose lower-cased name is not lobby, era or eras |
| `Commands.DispatchIgnoresCase` | src/main/java/br/com/artedaguerra/lobby/LobbyCommand.java:31 | names equal up to case are dispatched alike |
| `Commands.LobbyTeleportIffPermission` | src/main/java/br/com/artedaguerra/lobby/LobbyCommand.java:51-59 | `/lobby` teleports iff the player holds `artedaguerra.lobby`, and otherwise only refuses |
| `Commands.EraPermissionBeforeArguments` | src/main/java/br/com/artedaguerra/lobby/LobbyCommand.java:64-74 | `/era` without its permission is refused whatever the arguments; with it, a count other than one gives the usage |
| `Commands.EraTeleportNeedsValidArgument` | src/main/java/br/com/artedaguerra/lobby/LobbyCommand.java:76-89 | only a single argument that parses to 1..7 reaches `teletransportarParaEra` |
| `Commands.NonNumeralIsNotANumber` | src/main/java/br/com/artedaguerra/lobby/LobbyCommand.java:76-89 | an argument without digits is reported as not a number |
| `Commands.EraNumeralReachesTeleport` | src/main/java/br/com/artedaguerra/lobby/LobbyCommand.java:76-84 | every era written in decimal reaches the teleport; every other integer is out of range |
| `Commands.ErasListIffPermission` | src/main/java/br/com/artedaguerra/lobby/LobbyCommand.java:97-105 | `/eras` lists the eras iff the player holds `artedaguerra.eras` |
| `Commands.OnCommand` | src/main/java/br/com/artedaguerra/lobby/LobbyCommand.java:24-105 | returns the dispatch's verdict; teleports and listing are the manager's; an arrival sets the player's entry to `now` and schedules one removal, anything else leaves the map and the removals unchanged |
| `Gui.EraIconTotal` | src/main/java/br/com/artedaguerra/lobby/LobbyGUI.java:176-187 | seven distinct menu icons for the seven eras, stone otherwise |
| `Gui.EraIcon` | src/main/java/br/com/artedaguerra/lobby/LobbyGUI.java:176-187 | the menu icon of an era; stated by `Gui.EraIconTotal` |
| `Gui.EraSlotsLayout` | src/main/java/br/com/artedaguerra/lobby/LobbyGUI.java:103-108 | era `i` goes to slot `9 + i`, inside the 27 slots and clear of slots 18, 22 and 26 |
| `Gui.EraItem` | src/main/java/br/com/artedaguerra/lobby/LobbyGUI.java:149-171 | the item `criarItemEra` builds; stated by `Gui.EraItemShowsAccess` |
| `Gui.EraItemShowsAccess` | src/main/java/br/com/artedaguerra/lobby/LobbyGUI.java:149-171 | the item's name is the access colour then `Era i: <name>`; its last two lore lines depend on access alone |
| `Gui.ConfigureEraItems` | src/main/java/br/com/artedaguerra/lobby/LobbyGUI.java:102-109 | slots 10 to 16 receive the items of eras 1 to 7 and no other slot changes |
| `Gui.ConfigureNavigationItems` | src/main/java/br/com/artedaguerra/lobby/LobbyGUI.java:114-144 | the lobby, info and close buttons go to slots 18, 22 and 26 and no other slot changes |
| `Gui.SelectionMenu` | src/main/java/br/com/artedaguerra/lobby/LobbyGUI.java:33-43 | a new 27-slot menu holding exactly the era items and the three buttons |
| `Gui.InfoMenu` | src/main/java/br/com/artedaguerra/lobby/LobbyGUI.java:48-81 | a new 27-slot menu holding the project book in slot 13 and the back arrow in slot 22 |
| `Gui.ConfigMenu` | src/main/java/br/com/artedaguerra/lobby/LobbyGUI.java:86-97 | the empty configuration menu opens iff the player holds `artedaguerra.admin` |
| `Gui.SelectionMenuLayout` | src/main/java/br/com/artedaguerra/lobby/LobbyGUI.java:33-144 | every era item and button is in its slot, and all other slots are empty |
| `Gui.FirstEraMatch` | src/main/java/br/com/artedaguerra/lobby/LobbyGUI.java:221-231 | the result is the lowest era whose label occurs in the name, or none if no label occurs |
| `Gui.RouteSelectionClick` | src/main/java/br/com/artedaguerra/lobby/LobbyGUI.java:219-244 | the loop with its early return computes the selection-menu routing: first era label, then exact button names |
| `Gui.SelectionClick` | src/main/java/br/com/artedaguerra/lobby/LobbyGUI.java:219-244 | the selection-menu routing; the loop `Gui.RouteSelectionClick` is proved to compute it, and `Gui.EraItemClickRoutesToItsEra` and `Gui.ButtonsRoute` state where clicks go |
| `Gui.RouteClick` | src/main/java/br/com/artedaguerra/lobby/LobbyGUI.java:199-214 | `gerenciarClique` by title; stated by `Gui.OnlyMenuClicksAct` and `Gui.ButtonsRoute` |
| `Gui.InfoClick` | src/main/java/br/com/artedaguerra/lobby/LobbyGUI.java:249-253 | `gerenciarCliqueInformacoes`; stated by `Gui.ButtonsRoute` |
| `Gui.OnlyMenuClicksAct` | src/main/java/br/com/artedaguerra/lobby/LobbyGUI.java:199-214 | no item, no meta, or a title other than the two menus: nothing happens |
| `Gui.EraItemClickRoutesToItsEra` | src/main/java/br/com/artedaguerra/lobby/LobbyGUI.java:219-231 | clicking era `i`'s item travels to era `i` with access, or reports it locked, provided no lower era's label occurs in its name |
| `Gui.MisleadingEraNameIsMisrouted` | src/main/java/br/com/artedaguerra/lobby/LobbyGUI.java:221-231 | an era named with a lower era's label is routed to the lower era |
| `Gui.ButtonsRoute` | src/main/java/br/com/artedaguerra/lobby/LobbyGUI.java:234-253 | the three buttons do what they say; in the info menu only the back arrow acts |
| `Gui.HandleClick` | src/main/java/br/com/artedaguerra/lobby/LobbyGUI.java:199-253 | the routed action and the manager's teleport for travel and return; an arrival sets the player's entry to `now` and schedules one removal, a refused trip or any other action leaves the map and the removals unchanged |
| `Listener.NoSpawnNoProtection` | src/main/java/br/com/artedaguerra/lobby/LobbyListener.java:212-218 | with no spawn nobody is in the lobby: only menu clicks are cancelled and joining gives nothing |
| `Listener.InLobby` | src/main/java/br/com/artedaguerra/lobby/LobbyListener.java:212-218 | `isInLobby`; stated by `Listener.JoinGivesItemsIff` and `Listener.NoSpawnNoProtection` |
| `Listener.OnInteract` | src/main/java/br/com/artedaguerra/lobby/LobbyListener.java:36-59 | which menu a used item opens; stated by `Listener.NavigationItemsOpenMenus` and `Listener.NoSpawnNoProtection` |
| `Listener.OnInventoryClick` | src/main/java/br/com/artedaguerra/lobby/LobbyListener.java:64-86 | whether a click is cancelled and routed; stated by `Listener.MenuClicksCancelled` and `Listener.NonPlayersUntouched` |
| `Listener.OnBlockBreak` | src/main/java/br/com/artedaguerra/lobby/LobbyListener.java:91-101 | the break rule; stated by `Listener.BlockRulesAgree` and `Listener.ProtectionOffAllowsAll` |
| `Listener.OnBlockPlace` | src/main/java/br/com/artedaguerra/lobby/LobbyListener.java:106-116 | the place rule; stated by `Listener.BlockRulesAgree` |
| `Listener.OnDamage` | src/main/java/br/com/artedaguerra/lobby/LobbyListener.java:121-130 | the damage rule; stated by `Listener.BlockRulesAgree` and `Listener.NonPlayersUntouched` |
| `Listener.OnFoodLevelChange` | src/main/java/br/com/artedaguerra/lobby/LobbyListener.java:135-145 | the hunger rule, resetting the food level to 20; stated by `Listener.BlockRulesAgree` |
| `Listener.OnDropItem` | src/main/java/br/com/artedaguerra/lobby/LobbyListener.java:150-159 | the drop rule, silent; stated by `Listener.BlockRulesAgree` |
| `Listener.OnJoin` | src/main/java/br/com/artedaguerra/lobby/LobbyListener.java:164-171 | the items a joining player gets; stated by `Listener.JoinGivesItemsIff` |
| `Listener.ProtectionOffAllowsAll` | src/main/java/br/com/artedaguerra/lobby/LobbyListener.java:91-159 | with protection off, breaking, placing, dropping, damage and hunger are all allowed |
| `Listener.BlockRulesAgree` | src/main/java/br/com/artedaguerra/lobby/LobbyListener.java:91-159 | break, place and drop are cancelled together and only break and place send a message; admins are exempt from those three but not from damage or hunger |
| `Listener.NonPlayersUntouched` | src/main/java/br/com/artedaguerra/lobby/LobbyListener.java:64-145 | clicks, damage and hunger of non-players are never cancelled |
| `Listener.MenuClicksCancelled` | src/main/java/br/com/artedaguerra/lobby/LobbyListener.java:65-86 | a lobby-menu click is cancelled and routed; in the lobby every click is cancelled; configuration-menu clicks route to nothing |
| `Listener.NavigationItemsOpenMenus` | src/main/java/br/com/artedaguerra/lobby/LobbyListener.java:37-59 | the compass and book from `fornecerItensNavegacao` open the selection and info menus in the lobby; outside it no item opens anything |
| `Listener.JoinGivesItemsIff` | src/main/java/br/com/artedaguerra/lobby/LobbyListener.java:164-171 | a joining player gets the navigation items iff in the lobby with the items enabled |
| `Listener.InventoryClick` | src/main/java/br/com/artedaguerra/lobby/LobbyListener.java:64-86 | cancellation as the policy says; a routed click has the router's action and teleport outcome; an arrival sets the entry and schedules one removal, anything else leaves the map and the removals unchanged |
| `Core.ValidConfigComesDownToThree` | src/main/java/br/com/artedaguerra/ArteDaGuerraCore.java:98-119 | validation holds iff `geral`, `eras` and `lobby.mundo_nome` are present; the `lobby` check is implied |
| `Core.ValidConfig` | src/main/java/br/com/artedaguerra/ArteDaGuerraCore.java:98-119 | `validarConfiguracao`; reduced by `Core.ValidConfigComesDownToThree` |
| `Core.StoredValuesMakeConfigValid` | src/main/java/br/com/artedaguerra/ArteDaGuerraCore.java:98-119 | values stored under `geral`, `eras` and at `lobby.mundo_nome` make the configuration valid |
| `Core.MainCommandHandledIff` | src/main/java/br/com/artedaguerra/ArteDaGuerraCore.java:122-141 | `onCommand` returns true iff the name is `artedaguerra` in any case; with no arguments it shows the help |
| `Core.MainCommand` | src/main/java/br/com/artedaguerra/ArteDaGuerraCore.java:121-177 | the reply of `/artedaguerra`; stated by `Core.MainCommandHandledIff`, `Core.AdminSubcommands` and `Core.SubcommandIgnoresCase` |
| `Core.AdminSubcommands` | src/main/java/br/com/artedaguerra/ArteDaGuerraCore.java:143-176 | reload and status happen only for administrators and are refused otherwise; info needs nothing |
| `Core.SubcommandIgnoresCase` | src/main/java/br/com/artedaguerra/ArteDaGuerraCore.java:143 | subcommands equal up to case get the same reply |
| `Core.Plugin.constructor` | src/main/java/br/com/artedaguerra/ArteDaGuerraCore.java:19-22 | a loaded plugin has its configuration, no manager and no steps |
| `Core.Plugin.OnEnable` | src/main/java/br/com/artedaguerra/ArteDaGuerraCore.java:25-66 | invalid configuration: disabled, and the host's `onDisable` finalises any existing manager, whose settings, spawn and pending removals stay; valid: a fresh manager with its four settings, spawn, era locations and structure writes as `inicializar` leaves them, then commands, then events, in that order |
| `Core.Plugin.OnDisable` | src/main/java/br/com/artedaguerra/ArteDaGuerraCore.java:52-75 | the manager is finalised only if there is one, and nothing but the steps and the manager's two maps changes |
| `Core.Plugin.OnCommand` | src/main/java/br/com/artedaguerra/ArteDaGuerraCore.java:121-177 | the reply as dispatched, and a reload replaces only the plugin's configuration |
| `Core.EnableThenDisable` | src/main/java/br/com/artedaguerra/ArteDaGuerraCore.java:25-75 | with a valid configuration, enable then disable runs exactly the four steps in order, leaves no cooldowns and no era locations, and keeps the configuration, the enabled flag, the four settings read from it and the spawn `Location(world, spawnBlock)` when the world exists or was created |

## Left out

- World creation and game rules (`criarMundoLobby`) are not modelled. Whether creation succeeded is a parameter of `ConfigureLobbySpawn`.
- The era ring positions are computed with `Math.cos` and `Math.sin` on doubles. They enter as a function `ring` from era to block.
- The spawn's double coordinates, yaw and pitch are not modelled. The spawn enters as its block.
- `onPlayerMove` and its action-bar text are not modelled, because their distance test is floating point.
- Chat messages, action-bar text and the help, info and status texts are not modelled. Outcomes are datatypes instead.
- Opening and closing inventories, `player.teleport`, and building item stacks are host calls. Only the resulting menus, items and outcomes are modelled.
- The scheduler (`runTaskLater`) is not modelled. A scheduled removal is a pending record, with its delay in ticks, and runs as an explicit step (`RunRemoval`). Timing and threading are not modelled.
- Bukkit cancels a disabled plugin's tasks; removals still pending after `Finalize` are kept in the model.
- The clock is an argument. The source reads it once in the check and again in the update; the model uses one reading per teleport.
- Timestamps are unbounded integers, so `long` overflow is not modelled. The 32-bit product `teleportCooldown * 1000` and the narrowing cast of the reported wait are modelled exactly.
- `toLowerCase`, `equalsIgnoreCase` and `Integer.parseInt` are modelled over ASCII letters and digits only. Java also folds non-ASCII letters and accepts non-ASCII digits.
- `toLowerCase()` uses the server's default locale. The model assumes a locale that folds ASCII as `Locale.ROOT` does; under a Turkish locale, `I` lower-cases to a dotless `ı`, and `ERA` or `INFO` would no longer dispatch.
- Configuration values are strings, 32-bit integers, booleans and sections. Doubles and lists are not modelled.
- `getString` on a section is `None` in the model; Bukkit would return the section's text form.
- `validarConfiguracao` catches exceptions. The map-based configuration cannot throw, so that path is not modelled.
- `saveDefaultConfig`, the static `instance` singleton and logging are not modelled.
- The close button and the back arrow have no lore in the source. The model gives them an empty list.
- Item meta on a default item stack is taken to be present.
- `Lobby.LobbyManager.TeleportToLobby` does not model the player's inventory being cleared and refilled. The outcome records only whether navigation items were given; `NavigationInventory` is what they are.
