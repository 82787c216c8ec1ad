/** `ArteDaGuerraCore`: the plugin's entry points. `onEnable` validates the
    configuration and, when it is valid, builds the lobby manager and then
    registers the commands and the listener; `onDisable` shuts the manager
    down; `/artedaguerra` answers help, reload, info and status. */
module Core {
  import opened Wrappers
  import opened Text
  import opened Host
  import opened Platforms
  import opened Lobby

  // ---------------------------------------------------------------------------
  // Configuration validation (`validarConfiguracao`)

  /** The three required sections and the lobby world's name are present. */
  predicate ValidConfig(cfg: Config)
  {
    && ConfigContains(cfg, "geral")
    && ConfigContains(cfg, "lobby")
    && ConfigContains(cfg, "eras")
    && ConfigContains(cfg, "lobby.mundo_nome")
  }

  /** A key stored below a section's child is stored below the section too. */
  lemma {:induction false} GrandchildIsChild(cfg: Config, key: string)
    requires key in cfg && IsChildPath("lobby.mundo_nome", key)
    ensures ConfigContains(cfg, "lobby")
  {
    assert ("lobby.mundo_nome" + ".")[..6] == "lobby.";
    assert key[..6] == "lobby.";
    assert IsChildPath("lobby", key);
  }

  /** The check on the `lobby` section is implied by the check on
      `lobby.mundo_nome`: validation comes down to `geral`, `eras` and the
      lobby world's name. */
  lemma {:induction false} ValidConfigComesDownToThree(cfg: Config)
    ensures ValidConfig(cfg) <==>
      ConfigContains(cfg, "geral") && ConfigContains(cfg, "eras") && ConfigContains(cfg, "lobby.mundo_nome")
  {
    if ConfigContains(cfg, "lobby.mundo_nome") {
      if "lobby.mundo_nome" in cfg {
        assert "lobby.mundo_nome" == "lobby" + "." + "mundo_nome";
        ChildMakesSectionPresent(cfg, "lobby", "mundo_nome");
      } else {
        var key :| key in cfg && IsChildPath("lobby.mundo_nome", key);
        GrandchildIsChild(cfg, key);
      }
    }
  }

  /** Values stored at the three paths make the configuration valid. */
  lemma {:induction false} StoredValuesMakeConfigValid(cfg: Config, geral: string, eras: string)
    requires "geral." + geral in cfg && "eras." + eras in cfg && "lobby.mundo_nome" in cfg
    ensures ValidConfig(cfg)
  {
    assert "geral." + geral == "geral" + "." + geral;
    ChildMakesSectionPresent(cfg, "geral", geral);
    assert "eras." + eras == "eras" + "." + eras;
    ChildMakesSectionPresent(cfg, "eras", eras);
    ValidConfigComesDownToThree(cfg);
  }

  // ---------------------------------------------------------------------------
  // The main command (`onCommand`, `executarComandoPrincipal`)

  datatype MainReply =
    | NotThisCommand     // `onCommand` returns false
    | Help               // no arguments: version and command list
    | Reloaded           // the configuration is read again
    | NoPermission
    | PluginInfo
    | Status(managerActive: bool)
    | UnknownSubcommand

  function MainCommand(sender: Sender, name: string, args: seq<string>, managerActive: bool): MainReply
  {
    if !EqualsIgnoreCase(name, "artedaguerra") then NotThisCommand
    else if |args| == 0 then Help
    else
      var sub := ToLower(args[0]);
      var admin := SenderHasPermission(sender, AdminPermission);
      if sub == "reload" then (if admin then Reloaded else NoPermission)
      else if sub == "info" then PluginInfo
      else if sub == "status" then (if admin then Status(managerActive) else NoPermission)
      else UnknownSubcommand
  }

  /** `onCommand` returns true exactly for `artedaguerra` in any case, and
      then on every path; without arguments it shows the help. */
  lemma MainCommandHandledIff(sender: Sender, name: string, args: seq<string>, managerActive: bool)
    ensures MainCommand(sender, name, args, managerActive) != NotThisCommand <==> EqualsIgnoreCase(name, "artedaguerra")
    ensures EqualsIgnoreCase(name, "artedaguerra") && |args| == 0 ==> MainCommand(sender, name, args, managerActive) == Help
  {
  }

  /** `reload` and `status` need the administrator permission; `info` needs nothing. */
  lemma AdminSubcommands(sender: Sender, name: string, args: seq<string>, managerActive: bool)
    requires EqualsIgnoreCase(name, "artedaguerra") && |args| > 0
    ensures var r := MainCommand(sender, name, args, managerActive);
      (r == Reloaded || r.Status?) ==> SenderHasPermission(sender, AdminPermission)
    ensures ToLower(args[0]) == "info" ==> MainCommand(sender, name, args, managerActive) == PluginInfo
    ensures (ToLower(args[0]) == "reload" || ToLower(args[0]) == "status") ==>
      (MainCommand(sender, name, args, managerActive) == NoPermission <==> !SenderHasPermission(sender, AdminPermission))
  {
  }

  /** The subcommand is read without regard to case. */
  lemma {:induction false} SubcommandIgnoresCase(sender: Sender, name: string, sub1: string, sub2: string,
                                                 rest: seq<string>, managerActive: bool)
    requires EqualsIgnoreCase(sub1, sub2)
    ensures MainCommand(sender, name, [sub1] + rest, managerActive) == MainCommand(sender, name, [sub2] + rest, managerActive)
  {
    EqualsIgnoreCaseIsLowerEquality(sub1, sub2);
    assert ([sub1] + rest)[0] == sub1 && ([sub2] + rest)[0] == sub2;
  }

  // ---------------------------------------------------------------------------
  // The plugin's life cycle

  /** What `onEnable` and `onDisable` did, in order. */
  datatype Step =
    | DisabledForBadConfig
    | SystemsInitialized
    | CommandsRegistered
    | EventsRegistered
    | SystemsFinalized

  class Plugin {
    /** `getConfig()`: the configuration as last loaded. */
    var config: Config
    var enabled: bool
    var lobbyManager: LobbyManager?
    var steps: seq<Step>

    ghost predicate Valid()
      reads this, lobbyManager
    {
      lobbyManager != null ==> lobbyManager.Valid()
    }

    /** The manager, as a set with no member while there is none. */
    function Manager(): set<LobbyManager>
      reads this
    {
      if lobbyManager == null then {} else {lobbyManager}
    }

    /** A plugin loaded with configuration `cfg`, before `onEnable`. */
    constructor (cfg: Config)
      ensures Valid()
      ensures config == cfg && enabled && lobbyManager == null && steps == []
    {
      config := cfg;
      enabled := true;
      lobbyManager := null;
      steps := [];
    }

    /** `onEnable`: an invalid configuration disables the plugin, which has
        the host run `onDisable` at once, and skips everything else; otherwise
        the manager is created and initialised, then the commands, then the
        listener are registered. */
    method OnEnable(worlds: set<string>, worldCreated: bool, spawnBlock: BlockPos, ring: int -> BlockPos)
      returns (writes: map<BlockPos, Material>)
      requires Valid()
      modifies this, Manager()`teleportCooldowns, Manager()`eraLocations
      ensures Valid()
      ensures config == old(config)
      ensures !ValidConfig(config) ==>
        !enabled && lobbyManager == old(lobbyManager) && writes == map[]
      ensures !ValidConfig(config) && old(lobbyManager) == null ==>
        steps == old(steps) + [DisabledForBadConfig]
      ensures !ValidConfig(config) && old(lobbyManager) != null ==>
        steps == old(steps) + [DisabledForBadConfig, SystemsFinalized]
        && lobbyManager.teleportCooldowns == map[] && lobbyManager.eraLocations == map[]
        && lobbyManager.lobbySpawn == old(lobbyManager.lobbySpawn)
        && lobbyManager.pendingRemovals == old(lobbyManager.pendingRemovals)
        && lobbyManager.lobbyWorldName == old(lobbyManager.lobbyWorldName)
        && lobbyManager.teleportCooldown == old(lobbyManager.teleportCooldown)
        && lobbyManager.protectionEnabled == old(lobbyManager.protectionEnabled)
        && lobbyManager.navigationItemsEnabled == old(lobbyManager.navigationItemsEnabled)
      ensures ValidConfig(config) && old(lobbyManager) != null ==> unchanged(old(lobbyManager))
      ensures ValidConfig(config) ==>
        steps == old(steps) + [SystemsInitialized, CommandsRegistered, EventsRegistered]
        && enabled == old(enabled) && lobbyManager != null && fresh(lobbyManager)
        && lobbyManager.lobbyWorldName == GetStringOr(config, "lobby.mundo_nome", "lobby")
        && lobbyManager.teleportCooldown == GetInt(config, "lobby.teleport_cooldown", 3)
        && lobbyManager.protectionEnabled == GetBoolean(config, "lobby.protecao_ativada", true)
        && lobbyManager.navigationItemsEnabled == GetBoolean(config, "lobby.itens_navegacao", true)
        && lobbyManager.teleportCooldowns == map[] && lobbyManager.pendingRemovals == multiset{}
        && lobbyManager.lobbySpawn == (if lobbyManager.lobbyWorldName in worlds || worldCreated
                                       then Some(Location(lobbyManager.lobbyWorldName, spawnBlock)) else None)
      ensures ValidConfig(config) && lobbyManager.lobbySpawn.None? ==>
        lobbyManager.eraLocations == map[] && writes == map[]
      ensures ValidConfig(config) && lobbyManager.lobbySpawn.Some? ==>
        && (forall k :: k in lobbyManager.eraLocations <==> IsEra(k))
        && (forall era :: IsEra(era) ==>
              lobbyManager.eraLocations[era] == Location(lobbyManager.lobbySpawn.value.world, ring(era)))
        && StructuresUpTo(writes, lobbyManager.lobbySpawn.value.block, lobbyManager.eraLocations, 8)
    {
      if !ValidConfig(config) {
        steps := steps + [DisabledForBadConfig];
        enabled := false;
        OnDisable();
        return map[];
      }
      var m := new LobbyManager(config);
      writes := m.Initialize(config, worlds, worldCreated, spawnBlock, ring);
      lobbyManager := m;
      steps := steps + [SystemsInitialized];
      steps := steps + [CommandsRegistered];
      steps := steps + [EventsRegistered];
    }

    /** `onDisable`: the manager, if there is one, is finalised; nothing
        else changes. */
    method OnDisable()
      requires Valid()
      modifies this`steps, Manager()`teleportCooldowns, Manager()`eraLocations
      ensures Valid()
      ensures old(lobbyManager) != null ==>
        steps == old(steps) + [SystemsFinalized]
        && lobbyManager.teleportCooldowns == map[] && lobbyManager.eraLocations == map[]
      ensures old(lobbyManager) == null ==> steps == old(steps)
    {
      if lobbyManager != null {
        lobbyManager.Finalize();
        steps := steps + [SystemsFinalized];
      }
    }

    /** `onCommand`: `reload` reads the configuration file again
        (`fileConfig`) and nothing else; the manager keeps the settings it
        read when it was created. */
    method OnCommand(sender: Sender, name: string, args: seq<string>, fileConfig: Config)
      returns (handled: bool, reply: MainReply)
      modifies this`config
      ensures reply == MainCommand(sender, name, args, lobbyManager != null)
      ensures handled <==> EqualsIgnoreCase(name, "artedaguerra")
      ensures config == if reply == Reloaded then fileConfig else old(config)
    {
      reply := MainCommand(sender, name, args, lobbyManager != null);
      handled := reply != NotThisCommand;
      if reply == Reloaded {
        config := fileConfig;
      }
    }
  }

  /** Enabling with a valid configuration and disabling again leaves a
      manager with no cooldowns, after exactly the four steps in order;
      the configuration, the enabled flag, the manager's settings and its
      spawn stay as enabling left them, and the era locations are cleared. */
  method EnableThenDisable(cfg: Config, worlds: set<string>, worldCreated: bool, spawnBlock: BlockPos,
                           ring: int -> BlockPos)
    returns (plugin: Plugin)
    requires ValidConfig(cfg)
    ensures plugin.steps == [SystemsInitialized, CommandsRegistered, EventsRegistered, SystemsFinalized]
    ensures plugin.lobbyManager != null && plugin.lobbyManager.teleportCooldowns == map[]
    ensures plugin.config == cfg && plugin.enabled && plugin.lobbyManager.pendingRemovals == multiset{}
    ensures plugin.lobbyManager.lobbyWorldName == GetStringOr(cfg, "lobby.mundo_nome", "lobby")
    ensures plugin.lobbyManager.teleportCooldown == GetInt(cfg, "lobby.teleport_cooldown", 3)
    ensures plugin.lobbyManager.protectionEnabled == GetBoolean(cfg, "lobby.protecao_ativada", true)
    ensures plugin.lobbyManager.navigationItemsEnabled == GetBoolean(cfg, "lobby.itens_navegacao", true)
    ensures plugin.lobbyManager.lobbySpawn ==
      if plugin.lobbyManager.lobbyWorldName in worlds || worldCreated
      then Some(Location(plugin.lobbyManager.lobbyWorldName, spawnBlock)) else None
    ensures plugin.lobbyManager.eraLocations == map[]
  {
    plugin := new Plugin(cfg);
    var _ := plugin.OnEnable(worlds, worldCreated, spawnBlock, ring);
    plugin.OnDisable();
  }
}
