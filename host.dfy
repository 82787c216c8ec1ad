/** What the plugin sees of the game-server host, reduced to values: players
    with their world and granted permission nodes, command senders, block
    positions, the configuration file as a map from dotted paths to values,
    materials and item stacks. */
module Host {
  import opened Wrappers
  import opened Text

  /** A Minecraft formatting code: the section sign (U+00A7) followed by a
      colour character, as written at the head of chat and item texts. */
  function Colour(code: char): string
  {
    ['\U{00A7}', code]
  }

  /** The administrator permission node, checked by the main command, the
      configuration menu and the lobby protection rules. */
  const AdminPermission: string := "artedaguerra.admin"

  /** A player's unique id (`Player.getUniqueId()`). */
  type Uuid = nat

  /** A player: id, name of the world they stand in, and the permission nodes
      the host grants them (`hasPermission(node)` is `node in permissions`). */
  datatype Player = Player(id: Uuid, world: string, permissions: set<string>)

  predicate HasPermission(p: Player, node: string)
  {
    node in p.permissions
  }

  /** Whoever issued a command: a player, or anything else (the console, a command block). */
  datatype Sender = PlayerSender(player: Player) | OtherSender(permissions: set<string>)

  predicate SenderHasPermission(s: Sender, node: string)
  {
    match s
    case PlayerSender(p) => HasPermission(p, node)
    case OtherSender(perms) => node in perms
  }

  /** Integer block coordinates (`Location.getBlockX()` and so on). */
  datatype BlockPos = BlockPos(x: int, y: int, z: int)

  /** A location, reduced to its world's name and the block it lies in. */
  datatype Location = Location(world: string, block: BlockPos)

  // ---------------------------------------------------------------------------
  // Configuration (`plugin.getConfig()`): the effective configuration, with
  // the defaults bundled in the plugin already applied, flattened to dotted paths.

  datatype ConfigValue = Str(s: string) | Num(n: Int32) | Flag(b: bool) | Section

  type Config = map<string, ConfigValue>

  /** `path` names a section that holds `key`. */
  predicate IsChildPath(path: string, key: string)
  {
    path + "." <= key
  }

  /** `getConfig().contains(path)`: a value or a section is stored at `path`;
      a section exists as soon as something is stored below it. */
  predicate ConfigContains(cfg: Config, path: string)
  {
    path in cfg || exists key :: key in cfg && IsChildPath(path, key)
  }

  /** A key stored under a section makes the section present. */
  lemma ChildMakesSectionPresent(cfg: Config, path: string, rest: string)
    requires path + "." + rest in cfg
    ensures ConfigContains(cfg, path)
  {
    var key := path + "." + rest;
    assert key[..|path + "."|] == path + ".";
    assert IsChildPath(path, key);
  }

  /** `getString(path)`: the text of a scalar value, or `None` (Java `null`). */
  function GetString(cfg: Config, path: string): Option<string>
  {
    if path !in cfg then None
    else match cfg[path]
      case Str(s) => Some(s)
      case Num(n) => Some(IntToString(n))
      case Flag(b) => Some(if b then "true" else "false")
      case Section => None
  }

  /** `getString(path, default)`. */
  function GetStringOr(cfg: Config, path: string, default: string): string
  {
    GetString(cfg, path).GetOr(default)
  }

  /** `getInt(path, default)`: the number stored there, else the default. */
  function GetInt(cfg: Config, path: string, default: Int32): Int32
  {
    if path in cfg && cfg[path].Num? then cfg[path].n else default
  }

  /** `getBoolean(path, default)`: the flag stored there, else the default. */
  function GetBoolean(cfg: Config, path: string, default: bool): bool
  {
    if path in cfg && cfg[path].Flag? then cfg[path].b else default
  }

  // ---------------------------------------------------------------------------
  // Materials and item stacks

  datatype Material =
    | Dirt | Stone | Cobblestone | IronBlock | WhiteConcrete | RedstoneBlock | DiamondBlock
    | QuartzBlock | Beacon | Campfire | StoneSlab | Torch | CobblestoneStairs | BrickStairs
    | Glass | IronBars | EndRod
    | Compass | Book | WoodenPickaxe | StonePickaxe | IronSword | IronIngot | Diamond
    | NetherStar | Emerald | Paper | Barrier | Arrow

  /** Display name and lore lines of an item (`ItemMeta`). */
  datatype ItemMeta = ItemMeta(displayName: string, lore: seq<string>)

  /** An item stack; `meta` is `None` when `hasItemMeta()` is false. */
  datatype Item = Item(material: Material, meta: Option<ItemMeta>)

  function NamedItem(material: Material, name: string, lore: seq<string>): Item
  {
    Item(material, Some(ItemMeta(name, lore)))
  }
}
