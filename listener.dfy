/** `LobbyListener`: for each game event the lobby listens to, whether the
    event is cancelled and what else follows. The listener keeps no state
    of its own; it reads the manager's spawn and two settings. */
module Listener {
  import opened Wrappers
  import opened Host
  import opened Lobby
  import Cooldown
  import opened Gui

  /** `isInLobby`: false while no spawn is set, else the player's world is the spawn's. */
  predicate InLobby(spawn: Option<Location>, p: Player)
  {
    spawn.Some? && p.world == spawn.value.world
  }

  datatype Menu = SelectionMenuShown | InfoMenuShown

  /** `onPlayerInteract`: using the navigation compass or book in the lobby
      cancels the use and opens a menu; nothing else is touched. */
  function OnInteract(spawn: Option<Location>, p: Player, item: Option<Item>): (opens: Option<Menu>)
  {
    if item.None? || !InLobby(spawn, p) then None
    else
      var it := item.value;
      if it.material == Compass && it.meta.Some? && it.meta.value.displayName == MenuCompassName
      then Some(SelectionMenuShown)
      else if it.material == Book && it.meta.Some? && it.meta.value.displayName == InfoBookName
      then Some(InfoMenuShown)
      else None
  }

  predicate IsLobbyMenuTitle(title: string)
  {
    title == SelectionTitle || title == InfoTitle || title == ConfigTitle
  }

  /** Outcome of `onInventoryClick`: whether it is cancelled and whether it
      is handed to the menu router. */
  datatype ClickHandling = ClickHandling(cancelled: bool, routed: bool)

  /** `onInventoryClick`; `clicker` is `None` when whoever clicked is not a player. */
  function OnInventoryClick(spawn: Option<Location>, clicker: Option<Player>, title: string): ClickHandling
  {
    if clicker.None? then ClickHandling(false, false)
    else
      var menu := IsLobbyMenuTitle(title);
      ClickHandling(menu || InLobby(spawn, clicker.value), menu)
  }

  /** Whether an event is let through, or cancelled with or without a chat message. */
  datatype Verdict = Allowed | Cancelled(message: Option<string>)

  /** The rule shared by block breaking, block placing and item dropping. */
  predicate BlockRuleApplies(spawn: Option<Location>, protection: bool, p: Player)
  {
    InLobby(spawn, p) && protection && !HasPermission(p, AdminPermission)
  }

  /** `onBlockBreak`. */
  function OnBlockBreak(spawn: Option<Location>, protection: bool, p: Player): Verdict
  {
    if BlockRuleApplies(spawn, protection, p)
    then Cancelled(Some(Colour('c') + "Você não pode quebrar blocos no lobby!"))
    else Allowed
  }

  /** `onBlockPlace`. */
  function OnBlockPlace(spawn: Option<Location>, protection: bool, p: Player): Verdict
  {
    if BlockRuleApplies(spawn, protection, p)
    then Cancelled(Some(Colour('c') + "Você não pode colocar blocos no lobby!"))
    else Allowed
  }

  /** `onPlayerDropItem`: the same rule, silently. */
  function OnDropItem(spawn: Option<Location>, protection: bool, p: Player): Verdict
  {
    if BlockRuleApplies(spawn, protection, p) then Cancelled(None) else Allowed
  }

  /** `onEntityDamage`; `victim` is `None` when the entity is not a player.
      Administrators are protected like everyone else. */
  function OnDamage(spawn: Option<Location>, protection: bool, victim: Option<Player>): Verdict
  {
    if victim.Some? && InLobby(spawn, victim.value) && protection then Cancelled(None) else Allowed
  }

  /** Outcome of `onFoodLevelChange`: let through, or cancelled with the food level reset. */
  datatype FoodVerdict = FoodAllowed | FoodCancelled(foodLevel: int)

  const FullFoodLevel: int := 20

  function OnFoodLevelChange(spawn: Option<Location>, protection: bool, eater: Option<Player>): FoodVerdict
  {
    if eater.Some? && InLobby(spawn, eater.value) && protection then FoodCancelled(FullFoodLevel) else FoodAllowed
  }

  /** `onPlayerJoin`: the inventory a joining player is given, if any. */
  function OnJoin(spawn: Option<Location>, navigationItems: bool, p: Player): Option<map<int, Item>>
  {
    if InLobby(spawn, p) && navigationItems then Some(NavigationInventory()) else None
  }

  // ---------------------------------------------------------------------------
  // Properties of the policy

  /** Before a spawn is set nobody is in the lobby: no event is cancelled
      except clicks in the lobby's own menus, and joining players get nothing. */
  lemma NoSpawnNoProtection(protection: bool, navigationItems: bool, p: Player, item: Option<Item>,
                            title: string)
    ensures OnInteract(None, p, item) == None
    ensures OnInventoryClick(None, Some(p), title) == ClickHandling(IsLobbyMenuTitle(title), IsLobbyMenuTitle(title))
    ensures OnBlockBreak(None, protection, p) == Allowed && OnBlockPlace(None, protection, p) == Allowed
    ensures OnDropItem(None, protection, p) == Allowed
    ensures OnDamage(None, protection, Some(p)) == Allowed
    ensures OnFoodLevelChange(None, protection, Some(p)) == FoodAllowed
    ensures OnJoin(None, navigationItems, p) == None
  {
  }

  /** With protection off, the block, drop, damage and hunger rules let everything through. */
  lemma ProtectionOffAllowsAll(spawn: Option<Location>, p: Player)
    ensures OnBlockBreak(spawn, false, p) == Allowed && OnBlockPlace(spawn, false, p) == Allowed
    ensures OnDropItem(spawn, false, p) == Allowed
    ensures OnDamage(spawn, false, Some(p)) == Allowed && OnFoodLevelChange(spawn, false, Some(p)) == FoodAllowed
  {
  }

  /** Block breaking, block placing and dropping are cancelled together, and
      only breaking and placing say why; administrators are exempt from
      these three but not from the damage and hunger rules. */
  lemma BlockRulesAgree(spawn: Option<Location>, protection: bool, p: Player)
    ensures OnBlockBreak(spawn, protection, p).Cancelled? <==> OnDropItem(spawn, protection, p).Cancelled?
    ensures OnBlockPlace(spawn, protection, p).Cancelled? <==> OnDropItem(spawn, protection, p).Cancelled?
    ensures OnBlockBreak(spawn, protection, p).Cancelled? ==>
      OnBlockBreak(spawn, protection, p).message.Some? && OnBlockPlace(spawn, protection, p).message.Some?
      && OnDropItem(spawn, protection, p).message.None?
    ensures HasPermission(p, AdminPermission) ==>
      OnBlockBreak(spawn, protection, p) == Allowed && OnDropItem(spawn, protection, p) == Allowed
    ensures OnDamage(spawn, protection, Some(p)).Cancelled? <==> InLobby(spawn, p) && protection
    ensures OnFoodLevelChange(spawn, protection, Some(p)).FoodCancelled? <==> InLobby(spawn, p) && protection
    ensures OnBlockBreak(spawn, protection, p).Cancelled? ==> OnDamage(spawn, protection, Some(p)).Cancelled?
  {
  }

  /** Events of non-players are never cancelled. */
  lemma NonPlayersUntouched(spawn: Option<Location>, protection: bool, title: string)
    ensures OnInventoryClick(spawn, None, title) == ClickHandling(false, false)
    ensures OnDamage(spawn, protection, None) == Allowed
    ensures OnFoodLevelChange(spawn, protection, None) == FoodAllowed
  {
  }

  /** A player's click in a lobby menu is always cancelled and routed,
      wherever the player is; inside the lobby every click is cancelled and
      only menu clicks are routed. Clicks in the configuration menu are
      routed to nothing. */
  lemma MenuClicksCancelled(spawn: Option<Location>, p: Player, title: string, item: Option<Item>, cfg: Config)
    ensures IsLobbyMenuTitle(title) ==> OnInventoryClick(spawn, Some(p), title) == ClickHandling(true, true)
    ensures InLobby(spawn, p) ==> OnInventoryClick(spawn, Some(p), title).cancelled
    ensures OnInventoryClick(spawn, Some(p), title).routed <==> IsLobbyMenuTitle(title)
    ensures RouteClick(ConfigTitle, item, p, cfg) == NoAction
  {
  }

  /** The two items handed out by `fornecerItensNavegacao` open the two menus
      when used in the lobby, and nothing outside it. */
  lemma NavigationItemsOpenMenus(spawn: Option<Location>, p: Player)
    ensures 4 in NavigationInventory() && 8 in NavigationInventory()
    ensures InLobby(spawn, p) ==> OnInteract(spawn, p, Some(NavigationInventory()[4])) == Some(SelectionMenuShown)
    ensures InLobby(spawn, p) ==> OnInteract(spawn, p, Some(NavigationInventory()[8])) == Some(InfoMenuShown)
    ensures !InLobby(spawn, p) ==> OnInteract(spawn, p, Some(NavigationInventory()[4])) == None
    ensures !InLobby(spawn, p) ==> OnInteract(spawn, p, Some(NavigationInventory()[8])) == None
    ensures forall item :: !InLobby(spawn, p) ==> OnInteract(spawn, p, item) == None
  {
  }

  /** A joining player gets the navigation items exactly when in the lobby
      with the items enabled. */
  lemma JoinGivesItemsIff(spawn: Option<Location>, navigationItems: bool, p: Player)
    ensures OnJoin(spawn, navigationItems, p).Some? <==> spawn.Some? && p.world == spawn.value.world && navigationItems
  {
  }

  // ---------------------------------------------------------------------------
  // Carrying a click out

  /** `onInventoryClick` run against the manager: the click is routed to
      the menus only when it is in one of them. */
  method InventoryClick(manager: LobbyManager, clicker: Option<Player>, title: string, item: Option<Item>,
                        cfg: Config, worlds: set<string>, now: int)
    returns (cancelled: bool, action: ClickAction, effect: ClickEffect)
    requires manager.Valid()
    modifies manager`teleportCooldowns, manager`pendingRemovals
    ensures manager.Valid()
    ensures cancelled == OnInventoryClick(old(manager.lobbySpawn), clicker, title).cancelled
    ensures OnInventoryClick(manager.lobbySpawn, clicker, title).routed ==>
      action == RouteClick(title, item, clicker.value, cfg)
    ensures OnInventoryClick(manager.lobbySpawn, clicker, title).routed && action.ReturnToLobby? ==>
      effect == LobbyTrip(LobbyTeleportResult(manager.lobbySpawn, old(manager.teleportCooldowns),
                          manager.teleportCooldown, manager.navigationItemsEnabled, clicker.value, now))
    ensures OnInventoryClick(manager.lobbySpawn, clicker, title).routed && action.TravelToEra? ==>
      effect == EraTrip(EraTeleportResult(old(manager.teleportCooldowns), manager.teleportCooldown,
                        clicker.value, action.era, cfg, worlds, now))
    ensures !action.ReturnToLobby? && !action.TravelToEra? ==> effect == NoTeleport
    ensures !OnInventoryClick(manager.lobbySpawn, clicker, title).routed ==> action == NoAction
    ensures effect != NoTeleport ==> clicker.Some?
    ensures (effect.LobbyTrip? && effect.lobby.AtLobby?) || (effect.EraTrip? && effect.era.AtEra?) ==>
      manager.teleportCooldowns == Cooldown.Apply(old(manager.teleportCooldowns), clicker.value.id, now)
      && manager.pendingRemovals ==
         old(manager.pendingRemovals) + multiset{Removal(clicker.value.id, manager.teleportCooldown as int * 20)}
    ensures !((effect.LobbyTrip? && effect.lobby.AtLobby?) || (effect.EraTrip? && effect.era.AtEra?)) ==>
      manager.teleportCooldowns == old(manager.teleportCooldowns)
      && manager.pendingRemovals == old(manager.pendingRemovals)
  {
    action, effect := NoAction, NoTeleport;
    if clicker.None? {
      return false, action, effect;
    }
    var p := clicker.value;
    cancelled := false;
    if IsLobbyMenuTitle(title) {
      cancelled := true;
      action, effect := HandleClick(manager, title, item, p, cfg, worlds, now);
    }
    if InLobby(manager.lobbySpawn, p) {
      cancelled := true;
    }
  }
}
