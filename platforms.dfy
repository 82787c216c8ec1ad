/** The block structures `LobbyManager` builds around the lobby spawn: the
    round quartz platform with a beacon in the middle, and for every era a
    7 by 7 platform of the era's material with a small themed column on top.
    Each builder returns the block writes it would make, as a map from
    position to material (a later write to the same position wins). */
module Platforms {
  import opened Host

  /** `obterMaterialEra` in `LobbyManager`: the platform material of an era. */
  function EraBlockMaterial(era: int): Material
  {
    match era
    case 1 => Dirt
    case 2 => Stone
    case 3 => Cobblestone
    case 4 => IronBlock
    case 5 => WhiteConcrete
    case 6 => RedstoneBlock
    case 7 => DiamondBlock
    case _ => Stone
  }

  /** The seven eras get seven different materials; any other number gets stone. */
  lemma EraBlockMaterialTotal(era: int, other: int)
    ensures (era < 1 || era > 7) ==> EraBlockMaterial(era) == Stone
    ensures 1 <= era <= 7 && 1 <= other <= 7 && era != other ==>
              EraBlockMaterial(era) != EraBlockMaterial(other)
  {
  }

  // ---------------------------------------------------------------------------
  // Central platform

  /** The offsets the central platform keeps: its loops visit the square
      [-5, 5] x [-5, 5] and keep an offset when `Math.sqrt(x*x + z*z) <= 5`,
      which for integers is `x*x + z*z <= 25` (the square root is correctly
      rounded and monotone, the root of 25 is exactly 5 and that of 26 exceeds 5). */
  predicate InCentralDisc(dx: int, dz: int)
  {
    -5 <= dx <= 5 && -5 <= dz <= 5 && dx * dx + dz * dz <= 25
  }

  /** The platform lies one block below the spawn block. */
  predicate OnCentralPlatform(spawn: BlockPos, p: BlockPos)
  {
    p.y == spawn.y - 1 && InCentralDisc(p.x - spawn.x, p.z - spawn.z)
  }

  /** The beacon stands on the centre of the platform, in the spawn block itself. */
  function BeaconPos(spawn: BlockPos): BlockPos
  {
    BlockPos(spawn.x, spawn.y - 1 + 1, spawn.z)
  }

  /** `criarPlataformaCentral`. */
  method CentralPlatform(spawn: BlockPos) returns (writes: map<BlockPos, Material>)
    ensures forall p :: p in writes <==> OnCentralPlatform(spawn, p) || p == BeaconPos(spawn)
    ensures forall p :: p in writes ==> writes[p] == (if p == BeaconPos(spawn) then Beacon else QuartzBlock)
  {
    var centerX, centerY, centerZ := spawn.x, spawn.y - 1, spawn.z;
    writes := map[];
    var x := -5;
    while x <= 5
      invariant -5 <= x <= 6
      invariant forall p :: p in writes <==> OnCentralPlatform(spawn, p) && p.x - centerX < x
      invariant forall p :: p in writes ==> writes[p] == QuartzBlock
    {
      var z := -5;
      while z <= 5
        invariant -5 <= z <= 6
        invariant forall p :: p in writes <==>
          OnCentralPlatform(spawn, p) && (p.x - centerX < x || (p.x - centerX == x && p.z - centerZ < z))
        invariant forall p :: p in writes ==> writes[p] == QuartzBlock
      {
        if x * x + z * z <= 25 {
          writes := writes[BlockPos(centerX + x, centerY, centerZ + z) := QuartzBlock];
        }
        z := z + 1;
      }
      x := x + 1;
    }
    writes := writes[BlockPos(centerX, centerY + 1, centerZ) := Beacon];
  }

  lemma {:induction false} SquareAtLeast36(a: int)
    requires a >= 6 || a <= -6
    ensures a * a >= 36
  {
    if a >= 6 {
      assert a * a >= 6 * a;
    } else {
      assert a * a == (-a) * (-a);
      assert (-a) * (-a) >= 6 * (-a);
    }
  }

  /** The square the loops visit loses nothing: every offset within distance 5
      lies inside it, so the platform is the whole disc of radius 5. */
  lemma {:induction false} DiscFitsLoopBounds(dx: int, dz: int)
    requires dx * dx + dz * dz <= 25
    ensures InCentralDisc(dx, dz)
  {
    assert dz * dz >= 0 && dx * dx >= 0;
    if dx >= 6 || dx <= -6 { SquareAtLeast36(dx); }
    if dz >= 6 || dz <= -6 { SquareAtLeast36(dz); }
  }

  /** The disc is symmetric under mirroring and under swapping the axes. */
  lemma DiscSymmetric(dx: int, dz: int)
    requires InCentralDisc(dx, dz)
    ensures InCentralDisc(-dx, dz) && InCentralDisc(dx, -dz) && InCentralDisc(dz, dx)
  {
    assert (-dx) * (-dx) == dx * dx;
    assert (-dz) * (-dz) == dz * dz;
  }

  /** The beacon sits on the platform's centre block and is not part of the platform. */
  lemma BeaconOnPlatformCentre(spawn: BlockPos)
    ensures OnCentralPlatform(spawn, BlockPos(spawn.x, spawn.y - 1, spawn.z))
    ensures !OnCentralPlatform(spawn, BeaconPos(spawn))
    ensures BeaconPos(spawn).y == spawn.y
  {
  }

  // ---------------------------------------------------------------------------
  // Era areas

  /** The square platform of an era, one block below the era's location. */
  predicate OnEraPlatform(loc: BlockPos, p: BlockPos)
  {
    p.y == loc.y - 1 && -3 <= p.x - loc.x <= 3 && -3 <= p.z - loc.z <= 3
  }

  /** `criarEstruturaTematica` as a table: the column of blocks stacked on the
      era's location, bottom first (a campfire; a stone altar with a torch; a
      cobblestone tower; a brick chimney; a small building; an antenna; a portal). */
  function ThemeColumn(era: int): seq<Material>
  {
    match era
    case 1 => [Campfire]
    case 2 => [StoneSlab, Torch]
    case 3 => [Cobblestone, Cobblestone, Cobblestone, CobblestoneStairs]
    case 4 => [BrickStairs, BrickStairs, BrickStairs, BrickStairs]
    case 5 => [WhiteConcrete, Glass, WhiteConcrete]
    case 6 => [RedstoneBlock, IronBars, IronBars]
    case 7 => [DiamondBlock, EndRod]
    case _ => []
  }

  predicate InThemeColumn(era: int, loc: BlockPos, p: BlockPos)
  {
    p.x == loc.x && p.z == loc.z && loc.y <= p.y < loc.y + |ThemeColumn(era)|
  }

  /** Writes `material` on the `count` blocks above `base`, starting at height `from`. */
  method StackBlocks(writes: map<BlockPos, Material>, base: BlockPos, from: int, count: nat, material: Material)
    returns (result: map<BlockPos, Material>)
    ensures forall p :: p in result <==>
      (p in writes || (p.x == base.x && p.z == base.z && base.y + from <= p.y < base.y + from + count))
    ensures forall p :: p in result ==>
      result[p] == if p.x == base.x && p.z == base.z && base.y + from <= p.y < base.y + from + count
                   then material else writes[p]
  {
    result := writes;
    var i := 0;
    while i < count
      invariant 0 <= i <= count
      invariant forall p :: p in result <==>
        (p in writes || (p.x == base.x && p.z == base.z && base.y + from <= p.y < base.y + from + i))
      invariant forall p :: p in result ==>
        result[p] == if p.x == base.x && p.z == base.z && base.y + from <= p.y < base.y + from + i
                     then material else writes[p]
    {
      result := result[BlockPos(base.x, base.y + from + i, base.z) := material];
      i := i + 1;
    }
  }

  /** `criarEstruturaTematica`: the themed column on an era's location. */
  method ThemeStructure(era: int, loc: BlockPos) returns (writes: map<BlockPos, Material>)
    ensures forall p :: p in writes <==> InThemeColumn(era, loc, p)
    ensures forall p :: InThemeColumn(era, loc, p) ==> p in writes && writes[p] == ThemeColumn(era)[p.y - loc.y]
  {
    var x, y, z := loc.x, loc.y, loc.z;
    writes := map[];
    match era {
      case 1 =>
        writes := writes[BlockPos(x, y, z) := Campfire];
      case 2 =>
        writes := writes[BlockPos(x, y, z) := StoneSlab][BlockPos(x, y + 1, z) := Torch];
      case 3 =>
        writes := StackBlocks(writes, loc, 0, 3, Cobblestone);
        writes := writes[BlockPos(x, y + 3, z) := CobblestoneStairs];
      case 4 =>
        writes := StackBlocks(writes, loc, 0, 4, BrickStairs);
      case 5 =>
        writes := writes[BlockPos(x, y, z) := WhiteConcrete][BlockPos(x, y + 1, z) := Glass]
                        [BlockPos(x, y + 2, z) := WhiteConcrete];
      case 6 =>
        writes := writes[BlockPos(x, y, z) := RedstoneBlock][BlockPos(x, y + 1, z) := IronBars]
                        [BlockPos(x, y + 2, z) := IronBars];
      case 7 =>
        writes := writes[BlockPos(x, y, z) := DiamondBlock][BlockPos(x, y + 1, z) := EndRod];
      case _ =>
    }
  }

  predicate InEraArea(era: int, loc: BlockPos, p: BlockPos)
  {
    OnEraPlatform(loc, p) || InThemeColumn(era, loc, p)
  }

  /** What an era's area holds at `p`: the era's material on the platform,
      the column's block above it. */
  function EraAreaMaterial(era: int, loc: BlockPos, p: BlockPos): Material
    requires InEraArea(era, loc, p)
  {
    if OnEraPlatform(loc, p) then EraBlockMaterial(era) else ThemeColumn(era)[p.y - loc.y]
  }

  /** `criarAreaTematica` once the era's location is known: the square
      platform, then the themed column, which starts one block higher and so
      never overwrites the platform. */
  method EraArea(era: int, loc: BlockPos) returns (writes: map<BlockPos, Material>)
    ensures forall p :: p in writes <==> InEraArea(era, loc, p)
    ensures forall p :: p in writes ==> writes[p] == EraAreaMaterial(era, loc, p)
  {
    var x, y, z := loc.x, loc.y - 1, loc.z;
    var baseMaterial := EraBlockMaterial(era);
    writes := map[];
    var dx := -3;
    while dx <= 3
      invariant -3 <= dx <= 4
      invariant forall p :: p in writes <==> OnEraPlatform(loc, p) && p.x - x < dx
      invariant forall p :: p in writes ==> writes[p] == baseMaterial
    {
      var dz := -3;
      while dz <= 3
        invariant -3 <= dz <= 4
        invariant forall p :: p in writes <==>
          OnEraPlatform(loc, p) && (p.x - x < dx || (p.x - x == dx && p.z - z < dz))
        invariant forall p :: p in writes ==> writes[p] == baseMaterial
      {
        writes := writes[BlockPos(x + dx, y, z + dz) := baseMaterial];
        dz := dz + 1;
      }
      dx := dx + 1;
    }
    var theme := ThemeStructure(era, loc);
    writes := writes + theme;
  }
}
