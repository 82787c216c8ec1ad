/** `LobbyGUI`: the era selection menu, the project information menu and
    the (empty) configuration menu, each a 27-slot chest inventory, and the
    routing of a click inside them to an action. */
module Gui {
  import opened Wrappers
  import opened Text
  import opened Host
  import opened Lobby
  import Cooldown

  const MenuSize: int := 27

  const SelectionTitle: string := Colour('6') + "Seleção de Eras"
  const InfoTitle: string := Colour('e') + "Informações do Projeto"
  const ConfigTitle: string := Colour('7') + "Configurações"

  const LobbyButtonName: string := Colour('a') + "Voltar ao Lobby"
  const InfoButtonName: string := Colour('e') + "Informações do Projeto"
  const CloseButtonName: string := Colour('c') + "Fechar Menu"
  const BackButtonName: string := Colour('c') + "Voltar ao Menu Principal"

  /** `slots` in `configurarItensEras`: era `i` goes to `slots[i - 1]`. */
  const EraSlots: seq<int> := [10, 11, 12, 13, 14, 15, 16]

  /** `obterMaterialEra` in `LobbyGUI`: the icon of an era. */
  function EraIcon(era: int): Material
  {
    match era
    case 1 => WoodenPickaxe
    case 2 => StonePickaxe
    case 3 => IronSword
    case 4 => IronIngot
    case 5 => Diamond
    case 6 => RedstoneBlock
    case 7 => NetherStar
    case _ => Stone
  }

  /** The seven eras get seven different icons; any other number gets stone. */
  lemma EraIconTotal(era: int, other: int)
    ensures (era < 1 || era > 7) ==> EraIcon(era) == Stone
    ensures 1 <= era <= 7 && 1 <= other <= 7 && era != other ==> EraIcon(era) != EraIcon(other)
  {
  }

  /** Era `i` sits in slot `9 + i`, inside the inventory and clear of the
      navigation buttons in slots 18, 22 and 26. */
  lemma EraSlotsLayout(era: int)
    requires IsEra(era)
    ensures EraSlots[era - 1] == 9 + era
    ensures 0 <= EraSlots[era - 1] < MenuSize
    ensures EraSlots[era - 1] != 18 && EraSlots[era - 1] != 22 && EraSlots[era - 1] != 26
  {
  }

  // ---------------------------------------------------------------------------
  // Era items (`criarItemEra`)

  /** The text a click is matched against: `"Era " + era`. */
  function EraLabel(era: int): string
  {
    "Era " + IntToString(era)
  }

  function AccessColour(access: bool): string
  {
    if access then Colour('a') else Colour('c')
  }

  function EraItemName(era: int, name: string, access: bool): string
  {
    AccessColour(access) + EraLabel(era) + ": " + name
  }

  function EraItemLore(period: string, access: bool): seq<string>
  {
    [Colour('7') + "Período: " + period, "",
     if access then Colour('a') + "Clique para viajar!" else Colour('c') + "Era bloqueada",
     if access then "" else Colour('7') + "Você não tem acesso a esta era"]
  }

  function EraItem(cfg: Config, p: Player, era: int): Item
  {
    var access := HasEraAccess(p, era, cfg);
    NamedItem(EraIcon(era), EraItemName(era, EraName(cfg, era), access), EraItemLore(EraPeriod(cfg, era), access))
  }

  /** The item's name shows access by its colour code, then the era's label
      and name; its last two lore lines depend on access alone. */
  lemma EraItemShowsAccess(cfg1: Config, p1: Player, cfg2: Config, p2: Player, era: int)
    ensures var it := EraItem(cfg1, p1, era).meta.value;
      it.displayName[..2] == (if HasEraAccess(p1, era, cfg1) then Colour('a') else Colour('c'))
      && it.displayName[2..] == EraLabel(era) + ": " + EraName(cfg1, era)
      && |it.lore| == 4 && it.lore[0] == Colour('7') + "Período: " + EraPeriod(cfg1, era)
    ensures HasEraAccess(p1, era, cfg1) == HasEraAccess(p2, era, cfg2) ==>
      EraItem(cfg1, p1, era).meta.value.lore[2..] == EraItem(cfg2, p2, era).meta.value.lore[2..]
  {
    var it := EraItem(cfg1, p1, era).meta.value;
    assert it.displayName == AccessColour(HasEraAccess(p1, era, cfg1)) + (EraLabel(era) + ": " + EraName(cfg1, era));
  }

  // ---------------------------------------------------------------------------
  // Menu contents

  function LobbyButton(): Item
  {
    NamedItem(Emerald, LobbyButtonName, [Colour('7') + "Clique para voltar ao", Colour('7') + "spawn do lobby"])
  }

  function InfoButton(): Item
  {
    NamedItem(Paper, InfoButtonName, [Colour('7') + "Clique para ver mais", Colour('7') + "informações sobre o projeto"])
  }

  function CloseButton(): Item
  {
    NamedItem(Barrier, CloseButtonName, [])
  }

  /** What slot `i` of the selection menu holds. */
  function SelectionSlot(p: Player, cfg: Config, i: int): Option<Item>
  {
    if 10 <= i <= 16 then Some(EraItem(cfg, p, i - 9))
    else if i == 18 then Some(LobbyButton())
    else if i == 22 then Some(InfoButton())
    else if i == 26 then Some(CloseButton())
    else None
  }

  function SelectionMenuContents(p: Player, cfg: Config): (r: seq<Option<Item>>)
    ensures |r| == MenuSize
  {
    seq(MenuSize, i => SelectionSlot(p, cfg, i))
  }

  function ProjectBook(): Item
  {
    NamedItem(Book, Colour('6') + "Arte da Guerra",
      [Colour('7') + "Plugin de evolução da humanidade", Colour('7') + "através de 7 eras históricas", "",
       Colour('e') + "Características:", Colour('7') + "• Sistema de lobby temático", Colour('7') + "• 7 eras com progressão",
       Colour('7') + "• Comandos interativos", Colour('7') + "• Interface gráfica completa", "",
       Colour('7') + "Versão: 1.0.0-SNAPSHOT", Colour('7') + "Autor: Arte da Guerra Team"])
  }

  function BackButton(): Item
  {
    NamedItem(Arrow, BackButtonName, [])
  }

  function InfoMenuContents(): (r: seq<Option<Item>>)
    ensures |r| == MenuSize
  {
    seq(MenuSize, i => if i == 13 then Some(ProjectBook()) else if i == 22 then Some(BackButton()) else None)
  }

  // ---------------------------------------------------------------------------
  // Building the menus

  /** `configurarItensEras`: era `i`'s item into `slots[i - 1]`. */
  method ConfigureEraItems(gui: array<Option<Item>>, p: Player, cfg: Config)
    requires gui.Length == MenuSize
    modifies gui
    ensures forall i :: 10 <= i <= 16 ==> gui[i] == Some(EraItem(cfg, p, i - 9))
    ensures forall i :: 0 <= i < MenuSize && !(10 <= i <= 16) ==> gui[i] == old(gui[i])
  {
    var era := 1;
    while era <= 7
      invariant 1 <= era <= 8
      invariant forall i :: 10 <= i < 9 + era ==> gui[i] == Some(EraItem(cfg, p, i - 9))
      invariant forall i :: 0 <= i < MenuSize && !(10 <= i < 9 + era) ==> gui[i] == old(gui[i])
    {
      EraSlotsLayout(era);
      gui[EraSlots[era - 1]] := Some(EraItem(cfg, p, era));
      era := era + 1;
    }
  }

  /** `configurarItensNavegacao`: the three buttons of the bottom row. */
  method ConfigureNavigationItems(gui: array<Option<Item>>)
    requires gui.Length == MenuSize
    modifies gui
    ensures gui[18] == Some(LobbyButton()) && gui[22] == Some(InfoButton()) && gui[26] == Some(CloseButton())
    ensures forall i :: 0 <= i < MenuSize && i != 18 && i != 22 && i != 26 ==> gui[i] == old(gui[i])
  {
    gui[18] := Some(LobbyButton());
    gui[22] := Some(InfoButton());
    gui[26] := Some(CloseButton());
  }

  /** `abrirMenuSelecaoEras`: a new empty inventory, the era items, the buttons. */
  method SelectionMenu(p: Player, cfg: Config) returns (gui: array<Option<Item>>)
    ensures fresh(gui) && gui[..] == SelectionMenuContents(p, cfg)
  {
    gui := new Option<Item>[MenuSize](_ => None);
    ConfigureEraItems(gui, p, cfg);
    ConfigureNavigationItems(gui);
    assert forall i :: 0 <= i < MenuSize ==> gui[i] == SelectionSlot(p, cfg, i);
  }

  /** `abrirMenuInformacoes`. */
  method InfoMenu() returns (gui: array<Option<Item>>)
    ensures fresh(gui) && gui[..] == InfoMenuContents()
  {
    gui := new Option<Item>[MenuSize](_ => None);
    gui[13] := Some(ProjectBook());
    gui[22] := Some(BackButton());
  }

  /** `abrirMenuConfiguracoes`: an empty menu, for administrators only. */
  method ConfigMenu(p: Player) returns (gui: Option<array<Option<Item>>>)
    ensures gui.Some? <==> HasPermission(p, AdminPermission)
    ensures gui.Some? ==> fresh(gui.value) && gui.value[..] == seq(MenuSize, _ => None)
  {
    if !HasPermission(p, AdminPermission) {
      return None;
    }
    var a := new Option<Item>[MenuSize](_ => None);
    gui := Some(a);
  }

  /** Every era item and every button lies in its slot, inside the
      inventory, and every other slot is empty. */
  lemma SelectionMenuLayout(p: Player, cfg: Config, era: int)
    requires IsEra(era)
    ensures SelectionMenuContents(p, cfg)[EraSlots[era - 1]] == Some(EraItem(cfg, p, era))
    ensures SelectionMenuContents(p, cfg)[18] == Some(LobbyButton())
    ensures SelectionMenuContents(p, cfg)[22] == Some(InfoButton())
    ensures SelectionMenuContents(p, cfg)[26] == Some(CloseButton())
    ensures forall i :: 0 <= i < MenuSize ==>
      (SelectionMenuContents(p, cfg)[i].None? <==> !(10 <= i <= 16) && i != 18 && i != 22 && i != 26)
  {
    EraSlotsLayout(era);
  }

  // ---------------------------------------------------------------------------
  // Click routing (`gerenciarClique`)

  datatype ClickAction =
    | NoAction
    | TravelToEra(era: int)      // inventory closed, `teletransportarParaEra`
    | EraLocked(era: int)        // "no access" message
    | ReturnToLobby              // inventory closed, `teletransportarParaLobby`
    | OpenInfoMenu
    | CloseMenu
    | OpenSelectionMenu

  /** The lowest era from `from` to 7 whose label occurs in `name`. */
  function FirstEraMatch(name: string, from: int): (r: Option<int>)
    requires 1 <= from <= 8
    ensures r.Some? ==> from <= r.value <= 7 && Contains(name, EraLabel(r.value))
    ensures r.Some? ==> forall j :: from <= j < r.value ==> !Contains(name, EraLabel(j))
    ensures r.None? ==> forall j :: from <= j <= 7 ==> !Contains(name, EraLabel(j))
    decreases 8 - from
  {
    if from == 8 then None
    else if Contains(name, EraLabel(from)) then Some(from)
    else FirstEraMatch(name, from + 1)
  }

  /** `gerenciarCliqueSelecaoEras`: era labels first, lowest era first; then
      the three buttons by exact name. */
  function SelectionClick(p: Player, cfg: Config, name: string): ClickAction
  {
    match FirstEraMatch(name, 1)
    case Some(era) => if HasEraAccess(p, era, cfg) then TravelToEra(era) else EraLocked(era)
    case None =>
      if name == LobbyButtonName then ReturnToLobby
      else if name == InfoButtonName then OpenInfoMenu
      else if name == CloseButtonName then CloseMenu
      else NoAction
  }

  /** `gerenciarCliqueInformacoes`. */
  function InfoClick(name: string): ClickAction
  {
    if name == BackButtonName then OpenSelectionMenu else NoAction
  }

  /** `gerenciarClique`: no item or no meta, nothing; otherwise by the menu's title. */
  function RouteClick(title: string, item: Option<Item>, p: Player, cfg: Config): ClickAction
  {
    if item.None? || item.value.meta.None? then NoAction
    else
      var name := item.value.meta.value.displayName;
      if title == SelectionTitle then SelectionClick(p, cfg, name)
      else if title == InfoTitle then InfoClick(name)
      else NoAction
  }

  /** The loop of `gerenciarCliqueSelecaoEras`, with its early return. */
  method RouteSelectionClick(p: Player, cfg: Config, name: string) returns (action: ClickAction)
    ensures action == SelectionClick(p, cfg, name)
  {
    var era := 1;
    while era <= 7
      invariant 1 <= era <= 8
      invariant forall j :: 1 <= j < era ==> !Contains(name, EraLabel(j))
    {
      if Contains(name, EraLabel(era)) {
        if HasEraAccess(p, era, cfg) {
          return TravelToEra(era);
        } else {
          return EraLocked(era);
        }
      }
      era := era + 1;
    }
    if name == LobbyButtonName {
      action := ReturnToLobby;
    } else if name == InfoButtonName {
      action := OpenInfoMenu;
    } else if name == CloseButtonName {
      action := CloseMenu;
    } else {
      action := NoAction;
    }
  }

  // ---------------------------------------------------------------------------
  // Properties of the routing

  /** Clicks on an empty slot, on an item without meta, or in any other
      inventory do nothing. */
  lemma OnlyMenuClicksAct(title: string, item: Option<Item>, p: Player, cfg: Config)
    ensures item.None? || item.value.meta.None? ==> RouteClick(title, item, p, cfg) == NoAction
    ensures title != SelectionTitle && title != InfoTitle ==> RouteClick(title, item, p, cfg) == NoAction
  {
  }

  /** The label of an era in 1..7 is "Era " and its one digit. */
  lemma EraLabelShape(era: int)
    requires IsEra(era)
    ensures EraLabel(era) == "Era " + [DigitChar(era)]
  {
    SmallIntToString(era);
  }

  /** The only place in an era item's name where an era label can start
      before the era's own name is the item's own label. */
  lemma {:induction false} NoForeignLabelInPrefix(era: int, j: int, access: bool, name: string, k: int)
    requires IsEra(era) && IsEra(j) && j != era
    requires 0 <= k < 9
    ensures !OccursAt(EraItemName(era, name, access), EraLabel(j), k)
  {
    EraLabelShape(era);
    EraLabelShape(j);
    var s := EraItemName(era, name, access);
    var prefix := AccessColour(access) + EraLabel(era) + ": ";
    assert |prefix| == 9;
    assert s == prefix + name;
    var c := AccessColour(access);
    assert prefix == c + "Era " + [DigitChar(era)] + ": ";
    assert prefix[1] == c[1] != 'E' && prefix[3] == 'r' && prefix[4] == 'a' && prefix[5] == ' ';
    assert prefix[6] == DigitChar(era) && prefix[7] == ':' && prefix[8] == ' ';
    assert |EraLabel(j)| == 5 && EraLabel(j)[0] == 'E' && EraLabel(j)[4] == DigitChar(j);
    if k == 2 {
      assert s[k + 4] != EraLabel(j)[4];
    } else {
      assert s[k] != EraLabel(j)[0];
    }
  }

  /** Clicking the item of era `i` acts on era `i`, as long as no lower
      era's label occurs in era `i`'s configured name. */
  lemma {:induction false} EraItemClickRoutesToItsEra(p: Player, cfg: Config, era: int)
    requires IsEra(era)
    requires forall j :: 1 <= j < era ==> !Contains(EraName(cfg, era), EraLabel(j))
    ensures RouteClick(SelectionTitle, Some(EraItem(cfg, p, era)), p, cfg) ==
      if HasEraAccess(p, era, cfg) then TravelToEra(era) else EraLocked(era)
  {
    var access := HasEraAccess(p, era, cfg);
    var s := EraItemName(era, EraName(cfg, era), access);
    var prefix := AccessColour(access) + EraLabel(era) + ": ";
    EraLabelShape(era);
    assert s == prefix + EraName(cfg, era);
    assert s[2..7] == EraLabel(era);
    assert OccursAt(s, EraLabel(era), 2);
    forall j | 1 <= j < era ensures !Contains(s, EraLabel(j)) {
      forall k | 0 <= k <= |s| - |EraLabel(j)| ensures !OccursAt(s, EraLabel(j), k) {
        if k < 9 {
          NoForeignLabelInPrefix(era, j, access, EraName(cfg, era), k);
        } else if OccursAt(s, EraLabel(j), k) {
          OccursInSuffix(prefix, EraName(cfg, era), EraLabel(j), k);
          assert false;
        }
      }
    }
  }

  /** The routing is by substring, so an era whose configured name holds a
      lower era's label is routed to that lower era: here era 2, named
      "Era 1 revisitada", is taken for era 1. */
  lemma MisleadingEraNameIsMisrouted(p: Player)
    ensures var cfg := map[EraPath(2, "nome") := Str("Era 1 revisitada")];
      var action := RouteClick(SelectionTitle, Some(EraItem(cfg, p, 2)), p, cfg);
      (action.TravelToEra? || action.EraLocked?) && action.era == 1
  {
    var cfg := map[EraPath(2, "nome") := Str("Era 1 revisitada")];
    var access := HasEraAccess(p, 2, cfg);
    EraLabelShape(1);
    EraLabelShape(2);
    var s := EraItemName(2, EraName(cfg, 2), access);
    assert EraName(cfg, 2) == "Era 1 revisitada";
    assert s[9..14] == EraLabel(1);
    assert OccursAt(s, EraLabel(1), 9);
  }

  /** A name without an upper-case `E` holds no era label. */
  lemma {:induction false} NoLabelWithoutE(name: string)
    requires 'E' !in name
    ensures FirstEraMatch(name, 1) == None
  {
    forall j | 1 <= j <= 7 ensures !Contains(name, EraLabel(j)) {
      assert EraLabel(j)[0] == 'E';
      NotContainsWithoutFirstChar(name, EraLabel(j));
    }
  }

  /** The three buttons of the selection menu do what they say, and in the
      information menu only the arrow acts. */
  lemma {:induction false} ButtonsRoute(p: Player, cfg: Config)
    ensures RouteClick(SelectionTitle, Some(LobbyButton()), p, cfg) == ReturnToLobby
    ensures RouteClick(SelectionTitle, Some(InfoButton()), p, cfg) == OpenInfoMenu
    ensures RouteClick(SelectionTitle, Some(CloseButton()), p, cfg) == CloseMenu
    ensures RouteClick(InfoTitle, InfoMenuContents()[22], p, cfg) == OpenSelectionMenu
    ensures RouteClick(InfoTitle, InfoMenuContents()[13], p, cfg) == NoAction
  {
    NoLabelWithoutE(LobbyButtonName);
    NoLabelWithoutE(InfoButtonName);
    NoLabelWithoutE(CloseButtonName);
    assert InfoMenuContents()[22] == Some(BackButton());
    assert InfoMenuContents()[13] == Some(ProjectBook());
  }

  // ---------------------------------------------------------------------------
  // Carrying a click out

  datatype ClickEffect = NoTeleport | LobbyTrip(lobby: LobbyTeleport) | EraTrip(era: EraTeleport)

  /** `gerenciarClique` run against the manager: the action, and the
      teleport it started, if any. */
  method HandleClick(manager: LobbyManager, title: string, item: Option<Item>, p: Player,
                     cfg: Config, worlds: set<string>, now: int)
    returns (action: ClickAction, effect: ClickEffect)
    requires manager.Valid()
    modifies manager`teleportCooldowns, manager`pendingRemovals
    ensures manager.Valid()
    ensures action == RouteClick(title, item, p, cfg)
    ensures action.ReturnToLobby? ==>
      effect == LobbyTrip(LobbyTeleportResult(manager.lobbySpawn, old(manager.teleportCooldowns),
                          manager.teleportCooldown, manager.navigationItemsEnabled, p, now))
    ensures action.TravelToEra? ==>
      effect == EraTrip(EraTeleportResult(old(manager.teleportCooldowns), manager.teleportCooldown,
                        p, action.era, cfg, worlds, now))
    ensures !action.ReturnToLobby? && !action.TravelToEra? ==>
      effect == NoTeleport && manager.teleportCooldowns == old(manager.teleportCooldowns)
      && manager.pendingRemovals == old(manager.pendingRemovals)
    ensures (effect.LobbyTrip? && effect.lobby.AtLobby?) || (effect.EraTrip? && effect.era.AtEra?) ==>
      manager.teleportCooldowns == Cooldown.Apply(old(manager.teleportCooldowns), p.id, now)
      && manager.pendingRemovals ==
         old(manager.pendingRemovals) + multiset{Removal(p.id, manager.teleportCooldown as int * 20)}
    ensures !((effect.LobbyTrip? && effect.lobby.AtLobby?) || (effect.EraTrip? && effect.era.AtEra?)) ==>
      manager.teleportCooldowns == old(manager.teleportCooldowns)
      && manager.pendingRemovals == old(manager.pendingRemovals)
  {
    effect := NoTeleport;
    if item.None? || item.value.meta.None? {
      return NoAction, NoTeleport;
    }
    var name := item.value.meta.value.displayName;
    if title == SelectionTitle {
      action := RouteSelectionClick(p, cfg, name);
      if action.TravelToEra? {
        var r := manager.TeleportToEra(p, action.era, cfg, worlds, now);
        effect := EraTrip(r);
      } else if action.ReturnToLobby? {
        var r := manager.TeleportToLobby(p, now);
        effect := LobbyTrip(r);
      }
    } else if title == InfoTitle {
      action := InfoClick(name);
    } else {
      action := NoAction;
    }
  }
}
