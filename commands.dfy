/** `LobbyCommand`: the executor behind `/lobby`, `/era <number>` and
    `/eras`. Which branch a command takes is a pure decision over the sender,
    the command's name and its arguments; `OnCommand` then carries the
    decision out against the `LobbyManager`. */
module Commands {
  import opened Wrappers
  import opened Text
  import opened Host
  import opened Lobby
  import Cooldown

  /** The branch a command invocation ends in. */
  datatype CommandAction =
    | NotAPlayer        // the sender is the console or a command block
    | NoPermission      // the command's permission node is missing
    | TeleportLobby     // `teletransportarParaLobby` is called
    | EraUsage          // `/era` was not given exactly one argument
    | EraNotANumber     // `Integer.parseInt` threw
    | EraOutOfRange     // a number outside 1..7
    | TeleportEra(era: int)
    | ShowEras          // `listarEras` is called

  /** What `onCommand` returns: `false` (`Unhandled`) or `true` with the branch taken. */
  datatype Dispatch = Unhandled | Handled(action: CommandAction)

  const LobbyPermission: string := "artedaguerra.lobby"
  const EraCommandPermission: string := "artedaguerra.era"
  const ErasPermission: string := "artedaguerra.eras"

  /** `executarComandoLobby`. */
  function LobbyAction(p: Player): CommandAction
  {
    if !HasPermission(p, LobbyPermission) then NoPermission else TeleportLobby
  }

  /** `executarComandoEra`: permission first, then the argument count, the
      parse and the range. */
  function EraAction(p: Player, args: seq<string>): CommandAction
  {
    if !HasPermission(p, EraCommandPermission) then NoPermission
    else if |args| != 1 then EraUsage
    else match ParseInt(args[0])
      case None => EraNotANumber
      case Some(n) => if n < 1 || n > 7 then EraOutOfRange else TeleportEra(n)
  }

  /** `executarComandoEras`. */
  function ErasAction(p: Player): CommandAction
  {
    if !HasPermission(p, ErasPermission) then NoPermission else ShowEras
  }

  /** `onCommand`: non-players are turned away, then the lower-cased command
      name selects the sub-executor. */
  function DispatchCommand(sender: Sender, name: string, args: seq<string>): Dispatch
  {
    match sender
    case OtherSender(_) => Handled(NotAPlayer)
    case PlayerSender(p) =>
      var n := ToLower(name);
      if n == "lobby" then Handled(LobbyAction(p))
      else if n == "era" then Handled(EraAction(p, args))
      else if n == "eras" then Handled(ErasAction(p))
      else Unhandled
  }

  predicate IsLobbyCommandName(n: string)
  {
    n == "lobby" || n == "era" || n == "eras"
  }

  // ---------------------------------------------------------------------------
  // Properties of the dispatch

  /** A sender that is not a player gets the error and nothing else, whatever the command. */
  lemma NonPlayerOnlyGetsError(perms: set<string>, name: string, args: seq<string>)
    ensures DispatchCommand(OtherSender(perms), name, args) == Handled(NotAPlayer)
  {
  }

  /** `onCommand` returns `false` exactly for a player's command whose
      lower-cased name is none of the three; every branch of the three known
      commands returns `true`, whether or not a teleport follows. */
  lemma UnhandledIffUnknownName(sender: Sender, name: string, args: seq<string>)
    ensures DispatchCommand(sender, name, args) == Unhandled <==>
      sender.PlayerSender? && !IsLobbyCommandName(ToLower(name))
  {
  }

  /** Command names are compared without regard to case. */
  lemma {:induction false} DispatchIgnoresCase(sender: Sender, name1: string, name2: string, args: seq<string>)
    requires EqualsIgnoreCase(name1, name2)
    ensures DispatchCommand(sender, name1, args) == DispatchCommand(sender, name2, args)
  {
    EqualsIgnoreCaseIsLowerEquality(name1, name2);
  }

  /** `/lobby` teleports exactly the players holding its permission. */
  lemma LobbyTeleportIffPermission(p: Player, name: string, args: seq<string>)
    requires ToLower(name) == "lobby"
    ensures DispatchCommand(PlayerSender(p), name, args) == Handled(TeleportLobby) <==>
      LobbyPermission in p.permissions
    ensures LobbyPermission !in p.permissions ==>
      DispatchCommand(PlayerSender(p), name, args) == Handled(NoPermission)
  {
  }

  /** `/era` checks its permission before it looks at the arguments, and with
      the permission a wrong argument count only shows the usage. */
  lemma EraPermissionBeforeArguments(p: Player, args: seq<string>)
    ensures !HasPermission(p, EraCommandPermission) ==> EraAction(p, args) == NoPermission
    ensures HasPermission(p, EraCommandPermission) && |args| != 1 ==> EraAction(p, args) == EraUsage
  {
  }

  /** Only an era in 1..7, written as the one argument, reaches
      `teletransportarParaEra`, and only for a player with the permission. */
  lemma EraTeleportNeedsValidArgument(p: Player, args: seq<string>, era: int)
    requires EraAction(p, args) == TeleportEra(era)
    ensures IsEra(era) && HasPermission(p, EraCommandPermission)
    ensures |args| == 1 && ParseInt(args[0]) == Some(era)
  {
  }

  /** An argument that is not an integer is reported as such, never as out of range. */
  lemma {:induction false} NonNumeralIsNotANumber(p: Player, arg: string)
    requires HasPermission(p, EraCommandPermission)
    requires forall i :: 0 <= i < |arg| ==> !IsDigit(arg[i])
    ensures EraAction(p, [arg]) == EraNotANumber
  {
    ParseIntRejectsNonNumerals(arg);
  }

  /** Conversely, every era written in decimal reaches the teleport, and
      every other integer is refused as out of range. */
  lemma {:induction false} EraNumeralReachesTeleport(p: Player, n: Int32)
    requires HasPermission(p, EraCommandPermission)
    ensures IsEra(n) ==> EraAction(p, [IntToString(n)]) == TeleportEra(n)
    ensures !IsEra(n) ==> EraAction(p, [IntToString(n)]) == EraOutOfRange
  {
    ParseIntOfIntToString(n);
  }

  /** `/eras` lists the eras exactly for the players holding its permission. */
  lemma ErasListIffPermission(p: Player)
    ensures ErasAction(p) == ShowEras <==> ErasPermission in p.permissions
  {
  }

  // ---------------------------------------------------------------------------
  // Carrying the decision out

  /** The branch ends in a call into the manager. */
  predicate CallsManager(d: Dispatch)
  {
    d.Handled? && (d.action.TeleportLobby? || d.action.TeleportEra? || d.action.ShowEras?)
  }

  /** The effect of a command on the lobby: nothing, a lobby teleport, an
      era teleport, or the era listing. */
  datatype CommandEffect =
    | NoEffect
    | LobbyAttempt(lobby: LobbyTeleport)
    | EraAttempt(era: EraTeleport)
    | Listing(lines: seq<EraLine>)

  /** `onCommand` run against the manager: returns what `onCommand` returns
      and what happened. Only a teleport that arrives changes the manager. */
  method OnCommand(manager: LobbyManager, sender: Sender, name: string, args: seq<string>,
                   cfg: Config, worlds: set<string>, now: int)
    returns (handled: bool, effect: CommandEffect)
    requires manager.Valid()
    modifies manager`teleportCooldowns, manager`pendingRemovals
    ensures manager.Valid()
    ensures handled <==> DispatchCommand(sender, name, args).Handled?
    ensures !CallsManager(DispatchCommand(sender, name, args)) ==> effect == NoEffect
    ensures DispatchCommand(sender, name, args) == Handled(TeleportLobby) ==>
      effect == LobbyAttempt(LobbyTeleportResult(manager.lobbySpawn, old(manager.teleportCooldowns),
                             manager.teleportCooldown, manager.navigationItemsEnabled, sender.player, now))
    ensures forall era :: DispatchCommand(sender, name, args) == Handled(TeleportEra(era)) ==>
      effect == EraAttempt(EraTeleportResult(old(manager.teleportCooldowns), manager.teleportCooldown,
                           sender.player, era, cfg, worlds, now))
    ensures DispatchCommand(sender, name, args) == Handled(ShowEras) ==>
      effect.Listing? && |effect.lines| == 7
      && (forall i :: 0 <= i < 7 ==>
            effect.lines[i] == EraLine(i + 1, EraName(cfg, i + 1), EraPeriod(cfg, i + 1),
                                       HasEraAccess(sender.player, i + 1, cfg)))
    ensures effect != NoEffect ==> sender.PlayerSender?
    ensures (effect.LobbyAttempt? && effect.lobby.AtLobby?) || (effect.EraAttempt? && effect.era.AtEra?) ==>
      manager.teleportCooldowns == Cooldown.Apply(old(manager.teleportCooldowns), sender.player.id, now)
      && manager.pendingRemovals ==
         old(manager.pendingRemovals) + multiset{Removal(sender.player.id, manager.teleportCooldown as int * 20)}
    ensures (effect.LobbyAttempt? && effect.lobby.AtLobby?) || (effect.EraAttempt? && effect.era.AtEra?) ||
      (manager.teleportCooldowns == old(manager.teleportCooldowns)
       && manager.pendingRemovals == old(manager.pendingRemovals))
  {
    var d := DispatchCommand(sender, name, args);
    handled := d.Handled?;
    effect := NoEffect;
    if d.Handled? {
      match d.action {
        case TeleportLobby =>
          var r := manager.TeleportToLobby(sender.player, now);
          effect := LobbyAttempt(r);
        case TeleportEra(era) =>
          var r := manager.TeleportToEra(sender.player, era, cfg, worlds, now);
          effect := EraAttempt(r);
        case ShowEras =>
          var lines := ListEras(sender.player, cfg);
          effect := Listing(lines);
        case _ =>
      }
    }
  }
}
