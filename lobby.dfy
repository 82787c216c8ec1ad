/** `LobbyManager`: the lobby's settings, its spawn and era locations, the
    teleport cooldown map, and the two teleports with their guard chains.
    Host services come in as parameters: the configuration map, the set of
    loaded world names, the current time in milliseconds. */
module Lobby {
  import opened Wrappers
  import opened Text
  import opened Host
  import Cooldown
  import opened Platforms

  predicate IsEra(n: int)
  {
    1 <= n <= 7
  }

  /** `"eras.era_" + era + "." + field`. */
  function EraPath(era: int, field: string): string
  {
    "eras.era_" + IntToString(era) + "." + field
  }

  /** `"artedaguerra.era." + era`. */
  function EraPermission(era: int): string
  {
    "artedaguerra.era." + IntToString(era)
  }

  /** `verificarAcessoEra`: the era's permission node and its unlock flag. */
  predicate HasEraAccess(p: Player, era: int, cfg: Config)
  {
    HasPermission(p, EraPermission(era)) && GetBoolean(cfg, EraPath(era, "desbloqueada"), false)
  }

  /** Access needs both the permission and an unlock flag stored as `true`;
      an absent or non-boolean flag counts as locked. */
  lemma EraAccessIff(p: Player, era: int, cfg: Config)
    ensures HasEraAccess(p, era, cfg) <==>
      EraPermission(era) in p.permissions && EraPath(era, "desbloqueada") in cfg
      && cfg[EraPath(era, "desbloqueada")] == Flag(true)
  {
  }

  /** `obterNomeEra`. */
  function EraName(cfg: Config, era: int): string
  {
    GetStringOr(cfg, EraPath(era, "nome"), "Era " + IntToString(era))
  }

  /** `obterPeriodoEra`. */
  function EraPeriod(cfg: Config, era: int): string
  {
    GetStringOr(cfg, EraPath(era, "periodo"), "Período não definido")
  }

  // ---------------------------------------------------------------------------
  // Navigation items (`fornecerItensNavegacao`)

  const MenuCompassName: string := Colour('6') + "Menu das Eras"
  const InfoBookName: string := Colour('e') + "Informações do Projeto"

  /** The player's inventory after `fornecerItensNavegacao`: cleared, then a
      compass in hotbar slot 4 and a book in slot 8. */
  function NavigationInventory(): map<int, Item>
  {
    map[4 := NamedItem(Compass, MenuCompassName, [Colour('7') + "Clique para abrir o menu", Colour('7') + "de seleção de eras"]),
        8 := NamedItem(Book, InfoBookName, [Colour('7') + "Clique para ver informações", Colour('7') + "sobre o projeto Arte da Guerra"])]
  }

  // ---------------------------------------------------------------------------
  // Teleport decisions

  datatype LobbyTeleport =
    | LobbyUnset
    | LobbyCoolingDown(seconds: Int32)
    | AtLobby(spawn: Location, itemsGiven: bool)

  datatype EraTeleport =
    | InvalidEra
    | NoEraAccess
    | EraCoolingDown(seconds: Int32)
    | EraWorldUnset
    | EraWorldMissing(world: string)
    | AtEra(world: string)

  /** `teletransportarParaLobby`: the spawn must be set, then the cooldown must pass. */
  function LobbyTeleportResult(spawn: Option<Location>, m: Cooldown.Cooldowns, seconds: Int32,
                               navigationItems: bool, p: Player, now: int): LobbyTeleport
  {
    if spawn.None? then LobbyUnset
    else match Cooldown.Check(m, seconds, p.id, now)
      case CoolingDown(w) => LobbyCoolingDown(w)
      case Ready => AtLobby(spawn.value, navigationItems)
  }

  /** `teletransportarParaEra`: range, access, cooldown, configured world, loaded world. */
  function EraTeleportResult(m: Cooldown.Cooldowns, seconds: Int32, p: Player, era: int,
                             cfg: Config, worlds: set<string>, now: int): EraTeleport
  {
    if era < 1 || era > 7 then InvalidEra
    else if !HasEraAccess(p, era, cfg) then NoEraAccess
    else match Cooldown.Check(m, seconds, p.id, now)
      case CoolingDown(w) => EraCoolingDown(w)
      case Ready =>
        match GetString(cfg, EraPath(era, "mundo"))
        case None => EraWorldUnset
        case Some(w) => if w in worlds then AtEra(w) else EraWorldMissing(w)
  }

  /** An era teleport arrives exactly when all five guards pass. */
  lemma EraTeleportArrivesIff(m: Cooldown.Cooldowns, seconds: Int32, p: Player, era: int,
                              cfg: Config, worlds: set<string>, now: int)
    ensures EraTeleportResult(m, seconds, p, era, cfg, worlds, now).AtEra? <==>
      IsEra(era) && HasEraAccess(p, era, cfg) && Cooldown.Check(m, seconds, p.id, now).Ready?
      && GetString(cfg, EraPath(era, "mundo")).Some? && GetString(cfg, EraPath(era, "mundo")).value in worlds
  {
  }

  /** The first failing guard decides: a failure of an earlier guard makes the
      outcome independent of everything the later guards look at. */
  lemma EarlierGuardDecides(m1: Cooldown.Cooldowns, m2: Cooldown.Cooldowns, seconds: Int32, p: Player,
                            era: int, cfg1: Config, cfg2: Config, worlds1: set<string>, worlds2: set<string>,
                            now1: int, now2: int)
    ensures !IsEra(era) ==>
      EraTeleportResult(m1, seconds, p, era, cfg1, worlds1, now1) == InvalidEra ==
      EraTeleportResult(m2, seconds, p, era, cfg2, worlds2, now2)
    ensures IsEra(era) && !HasEraAccess(p, era, cfg1) && !HasEraAccess(p, era, cfg2) ==>
      EraTeleportResult(m1, seconds, p, era, cfg1, worlds1, now1) == NoEraAccess ==
      EraTeleportResult(m2, seconds, p, era, cfg2, worlds2, now2)
    ensures IsEra(era) && HasEraAccess(p, era, cfg1) && Cooldown.Check(m1, seconds, p.id, now1).CoolingDown? ==>
      EraTeleportResult(m1, seconds, p, era, cfg1, worlds1, now1) ==
      EraCoolingDown(Cooldown.Check(m1, seconds, p.id, now1).seconds)
  {
  }

  /** Right after a successful teleport of `p` at `t` (to the lobby or to an
      era), and with a cooldown that does not wrap, every teleport of `p`
      before the window ends is refused, and an era teleport that passes its
      range and access guards is refused for the cooldown. */
  lemma {:induction false} NoTeleportWithinWindow(m: Cooldown.Cooldowns, seconds: Int32, p: Player, t: int,
                                                  later: int, spawn: Location, navigationItems: bool,
                                                  era: int, cfg: Config, worlds: set<string>)
    requires 0 < seconds <= Cooldown.MaxExactSeconds
    requires t <= later < t + seconds * 1000
    ensures LobbyTeleportResult(Some(spawn), Cooldown.Apply(m, p.id, t), seconds, navigationItems, p, later).LobbyCoolingDown?
    ensures !EraTeleportResult(Cooldown.Apply(m, p.id, t), seconds, p, era, cfg, worlds, later).AtEra?
    ensures IsEra(era) && HasEraAccess(p, era, cfg) ==>
      EraTeleportResult(Cooldown.Apply(m, p.id, t), seconds, p, era, cfg, worlds, later).EraCoolingDown?
  {
    Cooldown.WindowMillisExact(seconds);
    Cooldown.CheckAfterApply(m, seconds, p.id, t, later);
  }

  // ---------------------------------------------------------------------------
  // Era listing (`listarEras`)

  datatype EraLine = EraLine(era: int, name: string, period: string, unlocked: bool)

  /** One line per era, 1 to 7, with its name, period and whether `p` may enter it. */
  method ListEras(p: Player, cfg: Config) returns (lines: seq<EraLine>)
    ensures |lines| == 7
    ensures forall i :: 0 <= i < 7 ==>
      lines[i] == EraLine(i + 1, EraName(cfg, i + 1), EraPeriod(cfg, i + 1), HasEraAccess(p, i + 1, cfg))
  {
    lines := [];
    var era := 1;
    while era <= 7
      invariant 1 <= era <= 8 && |lines| == era - 1
      invariant forall i :: 0 <= i < era - 1 ==>
        lines[i] == EraLine(i + 1, EraName(cfg, i + 1), EraPeriod(cfg, i + 1), HasEraAccess(p, i + 1, cfg))
    {
      lines := lines + [EraLine(era, EraName(cfg, era), EraPeriod(cfg, era), HasEraAccess(p, era, cfg))];
      era := era + 1;
    }
  }

  // ---------------------------------------------------------------------------
  // Lobby structures

  function CentralMaterial(spawn: BlockPos, p: BlockPos): Material
  {
    if p == BeaconPos(spawn) then Beacon else QuartzBlock
  }

  /** Some era from `from` up to (not including) `to` has a location and its area covers `p`. */
  predicate CoveredByEras(locs: map<int, Location>, from: int, to: int, p: BlockPos)
  {
    exists e :: from <= e < to && e in locs && InEraArea(e, locs[e].block, p)
  }

  /** `writes` holds the central platform round `spawn` and the areas of
      the eras before `upTo` that have a location, each block holding what
      the last structure covering it puts there. */
  ghost predicate StructuresUpTo(writes: map<BlockPos, Material>, spawn: BlockPos,
                                 locs: map<int, Location>, upTo: int)
  {
    && (forall p :: p in writes <==>
          OnCentralPlatform(spawn, p) || p == BeaconPos(spawn) || CoveredByEras(locs, 1, upTo, p))
    && (forall p :: p in writes && !CoveredByEras(locs, 1, upTo, p) ==> writes[p] == CentralMaterial(spawn, p))
    && (forall e, p ::
          (1 <= e < upTo && e in locs && InEraArea(e, locs[e].block, p) && !CoveredByEras(locs, e + 1, upTo, p))
          ==> writes[p] == EraAreaMaterial(e, locs[e].block, p))
  }

  lemma CoveredByErasExtend(locs: map<int, Location>, from: int, to: int, p: BlockPos)
    requires from <= to
    ensures CoveredByEras(locs, from, to + 1, p) <==>
      CoveredByEras(locs, from, to, p) || (to in locs && InEraArea(to, locs[to].block, p))
  {
    if to in locs && InEraArea(to, locs[to].block, p) {
      assert from <= to < to + 1;
    }
  }

  /** One loop step of `criarEstruturasLobby` for an era with a location. */
  lemma {:induction false} OverlayEraArea(writes: map<BlockPos, Material>, area: map<BlockPos, Material>,
                                          spawn: BlockPos, locs: map<int, Location>, era: int)
    requires 1 <= era && era in locs
    requires StructuresUpTo(writes, spawn, locs, era)
    requires forall p :: p in area <==> InEraArea(era, locs[era].block, p)
    requires forall p :: p in area ==> area[p] == EraAreaMaterial(era, locs[era].block, p)
    ensures StructuresUpTo(writes + area, spawn, locs, era + 1)
  {
    var w := writes + area;
    forall p ensures p in w <==>
      OnCentralPlatform(spawn, p) || p == BeaconPos(spawn) || CoveredByEras(locs, 1, era + 1, p)
    {
      CoveredByErasExtend(locs, 1, era, p);
    }
    forall p | p in w && !CoveredByEras(locs, 1, era + 1, p) ensures w[p] == CentralMaterial(spawn, p) {
      CoveredByErasExtend(locs, 1, era, p);
    }
    forall e, p | 1 <= e < era + 1 && e in locs && InEraArea(e, locs[e].block, p)
      && !CoveredByEras(locs, e + 1, era + 1, p)
      ensures w[p] == EraAreaMaterial(e, locs[e].block, p)
    {
      if e < era {
        CoveredByErasExtend(locs, e + 1, era, p);
        assert p !in area;
      }
    }
  }

  /** One loop step of `criarEstruturasLobby` for an era without a location. */
  lemma {:induction false} SkipEraWithoutLocation(writes: map<BlockPos, Material>, spawn: BlockPos,
                                                  locs: map<int, Location>, era: int)
    requires 1 <= era && era !in locs
    requires StructuresUpTo(writes, spawn, locs, era)
    ensures StructuresUpTo(writes, spawn, locs, era + 1)
  {
    forall p ensures CoveredByEras(locs, 1, era + 1, p) == CoveredByEras(locs, 1, era, p) {
      CoveredByErasExtend(locs, 1, era, p);
    }
    forall from, p | 2 <= from <= era ensures CoveredByEras(locs, from, era + 1, p) == CoveredByEras(locs, from, era, p) {
      CoveredByErasExtend(locs, from, era, p);
    }
  }

  /** A delayed removal handed to the host's scheduler: the player whose entry
      it removes and its delay in ticks (`teleportCooldown * 20L`). */
  datatype Removal = Removal(player: Uuid, delayTicks: int)

  class LobbyManager {
    var lobbyWorldName: string
    var teleportCooldown: Int32
    var protectionEnabled: bool
    var navigationItemsEnabled: bool
    var lobbySpawn: Option<Location>
    var eraLocations: map<int, Location>
    var teleportCooldowns: Cooldown.Cooldowns
    /** Removals scheduled by `aplicarCooldown` that have not run yet. */
    var pendingRemovals: multiset<Removal>

    predicate RemovalPending(u: Uuid)
      reads this
    {
      exists r :: r in pendingRemovals && r.player == u
    }

    /** Every player with a cooldown entry has a removal on its way, so no entry stays forever. */
    ghost predicate Valid()
      reads this
    {
      forall u :: u in teleportCooldowns ==> RemovalPending(u)
    }

    /** `new LobbyManager(plugin)`: empty maps, no spawn, settings read from the configuration. */
    constructor (cfg: Config)
      ensures Valid()
      ensures lobbyWorldName == GetStringOr(cfg, "lobby.mundo_nome", "lobby")
      ensures teleportCooldown == GetInt(cfg, "lobby.teleport_cooldown", 3)
      ensures protectionEnabled == GetBoolean(cfg, "lobby.protecao_ativada", true)
      ensures navigationItemsEnabled == GetBoolean(cfg, "lobby.itens_navegacao", true)
      ensures lobbySpawn == None && eraLocations == map[]
      ensures teleportCooldowns == map[] && pendingRemovals == multiset{}
    {
      lobbySpawn := None;
      eraLocations := map[];
      teleportCooldowns := map[];
      pendingRemovals := multiset{};
      lobbyWorldName := GetStringOr(cfg, "lobby.mundo_nome", "lobby");
      teleportCooldown := GetInt(cfg, "lobby.teleport_cooldown", 3);
      protectionEnabled := GetBoolean(cfg, "lobby.protecao_ativada", true);
      navigationItemsEnabled := GetBoolean(cfg, "lobby.itens_navegacao", true);
    }

    /** `carregarConfiguracoes`. */
    method LoadSettings(cfg: Config)
      modifies this`lobbyWorldName, this`teleportCooldown, this`protectionEnabled, this`navigationItemsEnabled
      ensures lobbyWorldName == GetStringOr(cfg, "lobby.mundo_nome", "lobby")
      ensures teleportCooldown == GetInt(cfg, "lobby.teleport_cooldown", 3)
      ensures protectionEnabled == GetBoolean(cfg, "lobby.protecao_ativada", true)
      ensures navigationItemsEnabled == GetBoolean(cfg, "lobby.itens_navegacao", true)
    {
      lobbyWorldName := GetStringOr(cfg, "lobby.mundo_nome", "lobby");
      teleportCooldown := GetInt(cfg, "lobby.teleport_cooldown", 3);
      protectionEnabled := GetBoolean(cfg, "lobby.protecao_ativada", true);
      navigationItemsEnabled := GetBoolean(cfg, "lobby.itens_navegacao", true);
    }

    /** `configurarLobbySpawn`: the lobby world is looked up by name or, when
        missing, created (`worldCreated` says whether creation succeeded);
        without a world the old spawn stays. `spawnBlock` is the block of the
        configured spawn coordinates. */
    method ConfigureLobbySpawn(worlds: set<string>, worldCreated: bool, spawnBlock: BlockPos)
      modifies this`lobbySpawn
      ensures lobbySpawn == if lobbyWorldName in worlds || worldCreated
                            then Some(Location(lobbyWorldName, spawnBlock)) else old(lobbySpawn)
    {
      var found := lobbyWorldName in worlds;
      if !found {
        found := worldCreated;
      }
      if found {
        lobbySpawn := Some(Location(lobbyWorldName, spawnBlock));
      }
    }

    /** `configurarEraLocations`: without a spawn nothing happens; otherwise
        eras 1 to 7 get the lobby-world location `ring(era)` (their point on
        the circle of radius 20 round the spawn). */
    method ConfigureEraLocations(ring: int -> BlockPos)
      modifies this`eraLocations
      ensures lobbySpawn.None? ==> eraLocations == old(eraLocations)
      ensures lobbySpawn.Some? ==>
        && (forall k :: k in eraLocations <==> k in old(eraLocations) || IsEra(k))
        && (forall era :: IsEra(era) ==>
              era in eraLocations && eraLocations[era] == Location(lobbySpawn.value.world, ring(era)))
        && (forall k :: k in old(eraLocations) && !IsEra(k) ==>
              k in eraLocations && eraLocations[k] == old(eraLocations)[k])
    {
      if lobbySpawn.None? {
        return;
      }
      var world := lobbySpawn.value.world;
      var era := 1;
      while era <= 7
        invariant 1 <= era <= 8
        invariant forall k :: k in eraLocations <==> k in old(eraLocations) || 1 <= k < era
        invariant forall e :: 1 <= e < era ==> e in eraLocations && eraLocations[e] == Location(world, ring(e))
        invariant forall k :: k in old(eraLocations) && !(1 <= k < era) ==>
          k in eraLocations && eraLocations[k] == old(eraLocations)[k]
      {
        eraLocations := eraLocations[era := Location(world, ring(era))];
        era := era + 1;
      }
    }

    /** `criarEstruturasLobby`: the central platform round the spawn, then
        the area of every era that has a location, in era order; a later
        write to a block wins. */
    method BuildStructures() returns (writes: map<BlockPos, Material>)
      ensures lobbySpawn.None? ==> writes == map[]
      ensures lobbySpawn.Some? ==> StructuresUpTo(writes, lobbySpawn.value.block, eraLocations, 8)
    {
      if lobbySpawn.None? {
        return map[];
      }
      var s := lobbySpawn.value.block;
      writes := CentralPlatform(s);
      var era := 1;
      while era <= 7
        invariant 1 <= era <= 8
        invariant StructuresUpTo(writes, s, eraLocations, era)
      {
        if era in eraLocations {
          var area := EraArea(era, eraLocations[era].block);
          OverlayEraArea(writes, area, s, eraLocations, era);
          writes := writes + area;
        } else {
          SkipEraWithoutLocation(writes, s, eraLocations, era);
        }
        era := era + 1;
      }
    }

    /** `inicializar`. */
    method Initialize(cfg: Config, worlds: set<string>, worldCreated: bool, spawnBlock: BlockPos,
                      ring: int -> BlockPos)
      returns (writes: map<BlockPos, Material>)
      requires Valid()
      modifies this`lobbyWorldName, this`teleportCooldown, this`protectionEnabled,
               this`navigationItemsEnabled, this`lobbySpawn, this`eraLocations
      ensures Valid()
      ensures lobbyWorldName == GetStringOr(cfg, "lobby.mundo_nome", "lobby")
      ensures teleportCooldown == GetInt(cfg, "lobby.teleport_cooldown", 3)
      ensures protectionEnabled == GetBoolean(cfg, "lobby.protecao_ativada", true)
      ensures navigationItemsEnabled == GetBoolean(cfg, "lobby.itens_navegacao", true)
      ensures lobbySpawn == if lobbyWorldName in worlds || worldCreated
                            then Some(Location(lobbyWorldName, spawnBlock)) else old(lobbySpawn)
      ensures lobbySpawn.None? ==> eraLocations == old(eraLocations) && writes == map[]
      ensures lobbySpawn.Some? ==>
        && (forall k :: k in eraLocations <==> k in old(eraLocations) || IsEra(k))
        && (forall era :: IsEra(era) ==>
              era in eraLocations && eraLocations[era] == Location(lobbySpawn.value.world, ring(era)))
        && (forall k :: k in old(eraLocations) && !IsEra(k) ==>
              k in eraLocations && eraLocations[k] == old(eraLocations)[k])
      ensures lobbySpawn.Some? ==> StructuresUpTo(writes, lobbySpawn.value.block, eraLocations, 8)
    {
      LoadSettings(cfg);
      ConfigureLobbySpawn(worlds, worldCreated, spawnBlock);
      ConfigureEraLocations(ring);
      writes := BuildStructures();
    }

    /** `finalizar`: both maps emptied. */
    method Finalize()
      requires Valid()
      modifies this`teleportCooldowns, this`eraLocations
      ensures Valid()
      ensures teleportCooldowns == map[] && eraLocations == map[]
    {
      teleportCooldowns := map[];
      eraLocations := map[];
    }

    /** `verificarCooldown`. */
    method CheckCooldown(p: Player, now: int) returns (verdict: Cooldown.Verdict)
      ensures verdict == Cooldown.Check(teleportCooldowns, teleportCooldown, p.id, now)
      ensures p.id !in teleportCooldowns ==> verdict.Ready?
    {
      verdict := Cooldown.Ready;
      if p.id in teleportCooldowns {
        var remaining := teleportCooldowns[p.id] + Cooldown.WindowMillis(teleportCooldown) - now;
        if remaining > 0 {
          verdict := Cooldown.CoolingDown(Int32Wrap(Int32Wrap(remaining / 1000) + 1));
        }
      }
    }

    /** `aplicarCooldown`: record `now` and schedule the entry's removal. */
    method ApplyCooldown(p: Player, now: int)
      requires Valid()
      modifies this`teleportCooldowns, this`pendingRemovals
      ensures Valid()
      ensures teleportCooldowns == Cooldown.Apply(old(teleportCooldowns), p.id, now)
      ensures pendingRemovals == old(pendingRemovals) + multiset{Removal(p.id, teleportCooldown as int * 20)}
    {
      var r := Removal(p.id, teleportCooldown as int * 20);
      teleportCooldowns := teleportCooldowns[p.id := now];
      pendingRemovals := pendingRemovals + multiset{r};
      assert r in pendingRemovals;
      forall u | u in teleportCooldowns ensures RemovalPending(u) {
        if u != p.id {
          var q :| q in old(pendingRemovals) && q.player == u;
          assert q in pendingRemovals;
        }
      }
    }

    /** The scheduler runs one pending removal: the player's entry goes,
        whatever it holds by then. */
    method RunRemoval(r: Removal)
      requires Valid() && r in pendingRemovals
      modifies this`teleportCooldowns, this`pendingRemovals
      ensures Valid()
      ensures teleportCooldowns == Cooldown.Expire(old(teleportCooldowns), r.player)
      ensures pendingRemovals == old(pendingRemovals) - multiset{r}
    {
      teleportCooldowns := teleportCooldowns - {r.player};
      pendingRemovals := pendingRemovals - multiset{r};
      forall u | u in teleportCooldowns ensures RemovalPending(u) {
        var q :| q in old(pendingRemovals) && q.player == u;
        assert q != r;
        assert q in pendingRemovals;
      }
    }

    /** `teletransportarParaLobby`: only a successful teleport records a cooldown. */
    method TeleportToLobby(p: Player, now: int) returns (outcome: LobbyTeleport)
      requires Valid()
      modifies this`teleportCooldowns, this`pendingRemovals
      ensures Valid()
      ensures outcome == LobbyTeleportResult(lobbySpawn, old(teleportCooldowns), teleportCooldown,
                                             navigationItemsEnabled, p, now)
      ensures outcome.AtLobby? ==>
        teleportCooldowns == Cooldown.Apply(old(teleportCooldowns), p.id, now)
        && pendingRemovals == old(pendingRemovals) + multiset{Removal(p.id, teleportCooldown as int * 20)}
      ensures !outcome.AtLobby? ==>
        teleportCooldowns == old(teleportCooldowns) && pendingRemovals == old(pendingRemovals)
    {
      if lobbySpawn.None? {
        return LobbyUnset;
      }
      var verdict := CheckCooldown(p, now);
      if verdict.CoolingDown? {
        return LobbyCoolingDown(verdict.seconds);
      }
      outcome := AtLobby(lobbySpawn.value, navigationItemsEnabled);
      ApplyCooldown(p, now);
    }

    /** `teletransportarParaEra`: the guards in source order; only a
        successful teleport records a cooldown. */
    method TeleportToEra(p: Player, era: int, cfg: Config, worlds: set<string>, now: int)
      returns (outcome: EraTeleport)
      requires Valid()
      modifies this`teleportCooldowns, this`pendingRemovals
      ensures Valid()
      ensures outcome == EraTeleportResult(old(teleportCooldowns), teleportCooldown, p, era, cfg, worlds, now)
      ensures outcome.AtEra? ==>
        teleportCooldowns == Cooldown.Apply(old(teleportCooldowns), p.id, now)
        && pendingRemovals == old(pendingRemovals) + multiset{Removal(p.id, teleportCooldown as int * 20)}
      ensures !outcome.AtEra? ==>
        teleportCooldowns == old(teleportCooldowns) && pendingRemovals == old(pendingRemovals)
    {
      if era < 1 || era > 7 {
        return InvalidEra;
      }
      if !HasEraAccess(p, era, cfg) {
        return NoEraAccess;
      }
      var verdict := CheckCooldown(p, now);
      if verdict.CoolingDown? {
        return EraCoolingDown(verdict.seconds);
      }
      var eraWorld := GetString(cfg, EraPath(era, "mundo"));
      if eraWorld.None? {
        return EraWorldUnset;
      }
      if eraWorld.value !in worlds {
        return EraWorldMissing(eraWorld.value);
      }
      outcome := AtEra(eraWorld.value);
      ApplyCooldown(p, now);
    }
  }
}
