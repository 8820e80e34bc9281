/** Game constants of Crash Derby Monsters: the monster roster and the tuning
    tables for the player, the AI, combat, power-ups, pitfalls and scoring. */
module Config {

  const GAME_WIDTH: real := 800.0
  const GAME_HEIGHT: real := 600.0

  /** The stat bundle each roster entry carries. */
  datatype Stats = Stats(maxSpeed: real, acceleration: real, drag: real, turnSpeed: real,
                         bounce: real, hp: real, sideGrip: real, sideGripBrake: real)

  /** The roster's id keys ('fang', 'brute', ...); ids are only ever compared,
      so each key is a constructor of its own. */
  datatype MonsterId = Fang | Brute | Viper | Magma | Specter | Titan | Blitz | Thorn

  /** One selectable monster of the roster. */
  datatype Monster = Monster(id: MonsterId, name: string, textureKey: string, color: int, stats: Stats)

  const ROSTER: seq<Monster> := [
    Monster(Fang, "Fang", "monster_fang", 0x22cc22,
            Stats(260.0, 360.0, 320.0, 155.0, 0.62, 95.0, 0.92, 0.96)),
    Monster(Brute, "Brute", "monster_brute", 0xcc2222,
            Stats(225.0, 320.0, 360.0, 135.0, 0.58, 130.0, 0.93, 0.97)),
    Monster(Viper, "Viper", "monster_viper", 0x22aaff,
            Stats(285.0, 410.0, 280.0, 165.0, 0.66, 85.0, 0.90, 0.95)),
    Monster(Magma, "Magma", "monster_magma", 0xff6622,
            Stats(245.0, 355.0, 340.0, 145.0, 0.64, 110.0, 0.92, 0.96)),
    Monster(Specter, "Specter", "monster_specter", 0x9933cc,
            Stats(275.0, 390.0, 300.0, 175.0, 0.65, 90.0, 0.91, 0.95)),
    Monster(Titan, "Titan", "monster_titan", 0x777777,
            Stats(215.0, 300.0, 380.0, 125.0, 0.56, 140.0, 0.94, 0.97)),
    Monster(Blitz, "Blitz", "monster_blitz", 0xffcc00,
            Stats(295.0, 430.0, 260.0, 170.0, 0.68, 80.0, 0.90, 0.94)),
    Monster(Thorn, "Thorn", "monster_thorn", 0x22aa55,
            Stats(250.0, 345.0, 335.0, 150.0, 0.62, 115.0, 0.92, 0.96))
  ]

  const OPPONENT_COUNT: nat := 4

  // Arena: the physics world bounds are the inner rectangle.
  const WALL_THICKNESS: real := 20.0
  const INNER_X: real := 22.0
  const INNER_Y: real := 22.0
  const INNER_W: real := 756.0
  const INNER_H: real := 556.0

  // Player tuning (the player's car always uses these, whatever monster was picked).
  const PLAYER_MAX_SPEED: real := 250.0
  const PLAYER_ACCELERATION: real := 360.0
  const PLAYER_DRAG: real := 320.0
  const PLAYER_TURN_SPEED: real := 155.0
  const PLAYER_BOUNCE: real := 0.65
  const PLAYER_SIDE_GRIP: real := 0.92
  const PLAYER_SIDE_GRIP_BRAKE: real := 0.96
  const PLAYER_HP: real := 100.0

  // AI tuning.
  const AI_MAX_SPEED: real := 200.0
  const AI_ACCELERATION: real := 350.0
  const AI_DRAG: real := 260.0
  const AI_TURN_SPEED: real := 160.0
  const AI_BOUNCE: real := 0.65
  const AI_HP: real := 80.0
  const AI_TARGET_SWITCH_TIME: real := 2000.0
  const AI_AGGRESSION: real := 0.35

  // Combat.
  const COLLISION_DAMAGE_FACTOR: real := 0.12
  const MIN_COLLISION_SPEED: real := 60.0
  const INVULNERABILITY_MS: real := 500.0

  /** The keys of the power-up type table. */
  datatype PowerupKind = Speed | Shield | MegaRam

  const POWERUP_SPAWN_INTERVAL: real := 6000.0
  const POWERUP_MAX_COUNT: nat := 3
  const SPEED_DURATION: real := 5000.0
  const SPEED_MULTIPLIER: real := 1.6
  const SPEED_COLOR: int := 0x00ff00
  const SHIELD_HITS: int := 2
  const SHIELD_COLOR: int := 0x4488ff
  const MEGA_RAM_DURATION: real := 6000.0
  const MEGA_RAM_MULTIPLIER: real := 3.0
  const MEGA_RAM_COLOR: int := 0xff4444

  /** The keys of the pitfall type table. */
  datatype PitfallKind = OilSlick | PitHole | SpikeStrip

  const PITFALL_SPAWN_INTERVAL: real := 8000.0
  const PITFALL_MAX_COUNT: nat := 4
  const OIL_SLICK_DURATION: real := 900.0
  const PIT_HOLE_DAMAGE: real := 30.0
  const SPIKE_STRIP_DAMAGE: real := 15.0

  // Scoring.
  const SCORE_HIT: int := 10
  const SCORE_DESTROY: int := 100
  const SCORE_POWERUP: int := 50
  const COMBO_WINDOW: real := 2000.0
  const COMBO_MULTIPLIER: real := 0.5

  /** Duration of a timed power-up, if it has one. */
  function PowerupDuration(k: PowerupKind): real
  {
    match k
    case Speed => SPEED_DURATION
    case Shield => 0.0
    case MegaRam => MEGA_RAM_DURATION
  }

  /** Multiplier of a timed power-up (1 for the shield, which has none). */
  function PowerupMultiplier(k: PowerupKind): real
  {
    match k
    case Speed => SPEED_MULTIPLIER
    case Shield => 1.0
    case MegaRam => MEGA_RAM_MULTIPLIER
  }

  /** The damage a pitfall deals; an oil slick deals none. */
  function PitfallDamage(k: PitfallKind): real
  {
    match k
    case OilSlick => 0.0
    case PitHole => PIT_HOLE_DAMAGE
    case SpikeStrip => SPIKE_STRIP_DAMAGE
  }

  predicate DistinctIds(roster: seq<Monster>)
  {
    forall i, j :: 0 <= i < j < |roster| ==> roster[i].id != roster[j].id
  }

  /** The roster with every entry of the given id taken out, in order. */
  function WithoutId(roster: seq<Monster>, id: MonsterId): (r: seq<Monster>)
    ensures |r| <= |roster|
  {
    if roster == [] then []
    else if roster[0].id == id then WithoutId(roster[1..], id)
    else [roster[0]] + WithoutId(roster[1..], id)
  }

  /** The entries that survive the filter are exactly the roster's entries
      of another id. */
  lemma {:induction false} WithoutIdMembers(roster: seq<Monster>, id: MonsterId)
    ensures forall m :: m in WithoutId(roster, id) <==> m in roster && m.id != id
    decreases |roster|
  {
    if roster != [] {
      WithoutIdMembers(roster[1..], id);
      assert roster == [roster[0]] + roster[1..];
    }
  }

  /** A roster with no entry of the id passes the filter unchanged. */
  lemma {:induction false} WithoutIdKeepsAll(roster: seq<Monster>, id: MonsterId)
    requires forall m :: m in roster ==> m.id != id
    ensures WithoutId(roster, id) == roster
    decreases |roster|
  {
    if roster != [] {
      assert roster == [roster[0]] + roster[1..];
      WithoutIdKeepsAll(roster[1..], id);
    }
  }

  /** Filtering out the id of an entry of a roster with distinct ids removes
      exactly that one entry. */
  lemma {:induction false} WithoutIdRemovesOne(roster: seq<Monster>, k: nat)
    requires DistinctIds(roster)
    requires k < |roster|
    ensures |WithoutId(roster, roster[k].id)| == |roster| - 1
    ensures roster[k] !in WithoutId(roster, roster[k].id)
  {
    var id := roster[k].id;
    if k == 0 {
      forall m | m in roster[1..] ensures m.id != id {
        var j :| 0 <= j < |roster[1..]| && roster[1..][j] == m;
        assert roster[j + 1] == m;
      }
      WithoutIdKeepsAll(roster[1..], id);
    } else {
      assert roster[0].id != id;
      assert DistinctIds(roster[1..]) by {
        forall i, j | 0 <= i < j < |roster[1..]| ensures roster[1..][i].id != roster[1..][j].id {
          assert roster[1..][i] == roster[i + 1] && roster[1..][j] == roster[j + 1];
        }
      }
      assert roster[1..][k - 1] == roster[k];
      WithoutIdRemovesOne(roster[1..], k - 1);
    }
  }

  /** All eight roster ids are distinct. */
  lemma RosterIdsDistinct()
    ensures |ROSTER| == 8
    ensures DistinctIds(ROSTER)
  {
  }

  /** Whatever monster the player picks, seven others remain, enough for the
      opponent count. */
  lemma RosterLeavesEnoughOpponents(k: nat)
    requires k < |ROSTER|
    ensures |WithoutId(ROSTER, ROSTER[k].id)| == |ROSTER| - 1 == 7
    ensures OPPONENT_COUNT <= |WithoutId(ROSTER, ROSTER[k].id)|
  {
    RosterIdsDistinct();
    WithoutIdRemovesOne(ROSTER, k);
  }

  /** The inner arena rectangle lies inside the game area. */
  lemma InnerArenaInsideGameArea()
    ensures 0.0 <= INNER_X && INNER_X + INNER_W <= GAME_WIDTH && INNER_X + INNER_W == 778.0
    ensures 0.0 <= INNER_Y && INNER_Y + INNER_H <= GAME_HEIGHT && INNER_Y + INNER_H == 578.0
  {
  }

  /** Timed power-ups last a positive time and boost by more than 1; the
      shield absorbs at least one hit; pitfall damages and the oil duration are
      positive. */
  lemma EffectConstantsPositive()
    ensures forall k :: k != Shield ==> PowerupDuration(k) > 0.0 && PowerupMultiplier(k) > 1.0
    ensures SHIELD_HITS >= 1
    ensures PIT_HOLE_DAMAGE > 0.0 && SPIKE_STRIP_DAMAGE > 0.0 && OIL_SLICK_DURATION > 0.0
  {
  }
}
