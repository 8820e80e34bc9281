/** The player's keyboard-driven car. Its health, score and power-up state
    are fields the methods update in place; every rule those methods apply is
    the pure rule of the Combat module, so each method is proved against it.
    Delayed callbacks (the red flash, the end of invulnerability, the end of a
    timed power-up, the end of an oil slick) are methods of their own, and a
    counter of scheduled-but-not-run callbacks says when each may fire. */
module PlayerCar {
  import opened Config
  import opened Combat

  class Player {
    const maxHp: real
    const textureKey: string
    var monsterName: string
    var hp: real
    var alive: bool
    /** The sprite's active flag; disableBody(true, true) clears it. */
    var active: bool
    var shieldHits: int
    var speedMultiplier: real
    var damageMultiplier: real
    var invulnerable: bool
    var score: int
    var combo: nat
    var lastHitTime: real
    var activePowerup: string
    var tint: Tint
    var body: Body
    /** The per-pitfall debounce stamps the scene writes on the car. */
    var pitStamps: map<PitKey, real>
    var pendingFlashes: nat
    var pendingSpeedExpiries: nat
    var pendingRamExpiries: nat
    var pendingOilRestores: nat

    function Health(): Vitals
      reads this`hp, this`shieldHits, this`invulnerable, this`alive
    {
      Vitals(hp, shieldHits, invulnerable, alive)
    }

    function ScoreCard(): ScoreState
      reads this`score, this`combo, this`lastHitTime
    {
      ScoreState(score, combo, lastHitTime)
    }

    /** The class invariant: sound health, the sprite active exactly while
        alive, each multiplier at 1 or its boost value, at most one of the two
        boosted (a pickup resets both first), and a boosted multiplier always
        has its expiry scheduled. It does not read the physics body. */
    ghost predicate Valid()
      reads this`hp, this`shieldHits, this`invulnerable, this`alive, this`active,
            this`speedMultiplier, this`damageMultiplier, this`pendingSpeedExpiries, this`pendingRamExpiries
    {
      maxHp == PLAYER_HP && Sound(Vitals(hp, shieldHits, invulnerable, alive)) && active == alive &&
      (speedMultiplier == 1.0 || speedMultiplier == SPEED_MULTIPLIER) &&
      (damageMultiplier == 1.0 || damageMultiplier == MEGA_RAM_MULTIPLIER) &&
      (speedMultiplier == 1.0 || damageMultiplier == 1.0) &&
      (speedMultiplier != 1.0 ==> pendingSpeedExpiries > 0) &&
      (damageMultiplier != 1.0 ==> pendingRamExpiries > 0)
    }

    /** new Player(scene, x, y, textureKey, stats): the constructor takes only
        the position, so the texture is always 'player' and the tuning is the
        fixed player table, whatever the chosen monster's stats say. */
    constructor(x: real, y: real, texture: string, stats: Stats)
      ensures Valid()
      ensures textureKey == "player" && maxHp == PLAYER_HP && monsterName == ""
      ensures Health() == Vitals(PLAYER_HP, 0, false, true) && active
      ensures ScoreCard() == ScoreState(0, 0, 0.0)
      ensures speedMultiplier == 1.0 && damageMultiplier == 1.0 && activePowerup == "" && tint == Untinted
      ensures body == RestingBody(x, y, PLAYER_DRAG, PLAYER_MAX_SPEED) && pitStamps == map[]
      ensures pendingFlashes == pendingSpeedExpiries == pendingRamExpiries == pendingOilRestores == 0
    {
      maxHp := PLAYER_HP;
      textureKey := "player";
      monsterName := "";
      hp := PLAYER_HP;
      alive := true;
      active := true;
      shieldHits := 0;
      speedMultiplier := 1.0;
      damageMultiplier := 1.0;
      invulnerable := false;
      score := 0;
      combo := 0;
      lastHitTime := 0.0;
      activePowerup := "";
      tint := Untinted;
      body := RestingBody(x, y, PLAYER_DRAG, PLAYER_MAX_SPEED);
      pitStamps := map[];
      pendingFlashes := 0;
      pendingSpeedExpiries := 0;
      pendingRamExpiries := 0;
      pendingOilRestores := 0;
    }

    /** The per-frame update: a live car turns, throttles and brakes as the
        held keys say; a dead one does nothing. `speed` is the length of the
        body's velocity. */
    method Update(intent: ControlIntent, speed: real)
      requires IsSpeed(speed, body)
      modifies this`body
      ensures body == if alive then Driven(old(body), PlayerDrive(intent, speed, speedMultiplier)) else old(body)
    {
      if !alive {
        return;
      }
      body := Driven(body, PlayerDrive(intent, speed, speedMultiplier));
    }

    /** The marks a hit leaves on a car whose health was v before it: a hit that
        reaches the hp tints the car red and schedules the tint's clearing; a
        hit that uses up the last shield drops the shield's tint and its label;
        any other hit leaves both alone. */
    twostate predicate Marked(v: Vitals)
      reads this`tint, this`activePowerup, this`pendingFlashes
    {
      tint == (if Struck(v) then Tinted(HIT_FLASH_COLOR) else if ShieldEmptied(v) then Untinted else old(tint)) &&
      activePowerup == (if ShieldEmptied(v) then "" else old(activePowerup)) &&
      pendingFlashes == old(pendingFlashes) + (if Struck(v) then 1 else 0)
    }

    /** takeDamage(amount): the health changes by the shared damage rule; a
        shield hit that uses up the shield drops its tint and label; a real hit
        flashes red and schedules the flash's end; a killing hit disables the
        body. */
    method TakeDamage(amount: real)
      requires Valid()
      modifies this`hp, this`shieldHits, this`invulnerable, this`alive, this`active, this`tint,
               this`activePowerup, this`pendingFlashes, this`body
      ensures Valid()
      ensures Health() == Combat.TakeDamage(old(Health()), amount)
      ensures Marked(old(Health()))
      ensures body == if old(alive) && !alive then WithEnabled(old(body), false) else old(body)
    {
      if invulnerable || !alive {
        return;
      }
      if shieldHits > 0 {
        shieldHits := shieldHits - 1;
        if shieldHits <= 0 {
          tint := Untinted;
          activePowerup := "";
        }
        return;
      }
      hp := Max(0.0, hp - amount);
      tint := Tinted(HIT_FLASH_COLOR);
      pendingFlashes := pendingFlashes + 1;
      invulnerable := true;
      if hp <= 0.0 {
        Die();
      }
    }

    /** die(): the car is dead and its body leaves the simulation. */
    method Die()
      modifies this`alive, this`active, this`body
      ensures !alive && !active && body == WithEnabled(old(body), false)
    {
      alive := false;
      active := false;
      body := WithEnabled(body, false);
    }

    /** The 500 ms callback that ends the invulnerability window. It is
        scheduled exactly when invulnerability starts, and no hit lands while
        it is pending, so it is pending exactly while the car is invulnerable. */
    method ExpireInvulnerability()
      requires Valid() && invulnerable
      modifies this`invulnerable
      ensures Valid() && !invulnerable
    {
      invulnerable := false;
    }

    /** restoreTint(): back to the tint of the highest-precedence live power-up. */
    method RestoreTint()
      modifies this`tint
      ensures tint == RestoredTint(speedMultiplier, shieldHits, damageMultiplier)
    {
      if speedMultiplier > 1.0 {
        tint := Tinted(SPEED_COLOR);
        return;
      }
      if shieldHits > 0 {
        tint := Tinted(SHIELD_COLOR);
        return;
      }
      if damageMultiplier > 1.0 {
        tint := Tinted(MEGA_RAM_COLOR);
        return;
      }
      tint := Untinted;
    }

    /** The 120 ms callback that ends the red flash: a live car gets its
        power-up tint back, a dead one keeps the red. */
    method ExpireFlash()
      requires Valid() && pendingFlashes > 0
      modifies this`tint, this`pendingFlashes
      ensures Valid()
      ensures tint == if alive then RestoredTint(speedMultiplier, shieldHits, damageMultiplier) else old(tint)
      ensures pendingFlashes == old(pendingFlashes) - 1
    {
      pendingFlashes := pendingFlashes - 1;
      if alive {
        RestoreTint();
      }
    }

    /** applyPowerup(type, cfg): both multipliers are reset first, then the
        picked power-up sets its own multiplier or shield, its tint and its HUD
        label, and a timed one schedules its expiry. */
    method ApplyPowerup(kind: PowerupKind)
      requires Valid()
      modifies this`speedMultiplier, this`damageMultiplier, this`shieldHits, this`tint, this`activePowerup,
               this`pendingSpeedExpiries, this`pendingRamExpiries
      ensures Valid()
      ensures speedMultiplier == if kind == Speed then SPEED_MULTIPLIER else 1.0
      ensures damageMultiplier == if kind == MegaRam then MEGA_RAM_MULTIPLIER else 1.0
      ensures shieldHits == if kind == Shield then SHIELD_HITS else old(shieldHits)
      ensures tint == PowerupTint(kind) && activePowerup == PowerupLabel(kind)
      ensures pendingSpeedExpiries == old(pendingSpeedExpiries) + (if kind == Speed then 1 else 0)
      ensures pendingRamExpiries == old(pendingRamExpiries) + (if kind == MegaRam then 1 else 0)
    {
      speedMultiplier := 1.0;
      damageMultiplier := 1.0;
      match kind {
        case Speed =>
          speedMultiplier := SPEED_MULTIPLIER;
          pendingSpeedExpiries := pendingSpeedExpiries + 1;
        case Shield =>
          shieldHits := SHIELD_HITS;
        case MegaRam =>
          damageMultiplier := MEGA_RAM_MULTIPLIER;
          pendingRamExpiries := pendingRamExpiries + 1;
      }
      tint := PowerupTint(kind);
      activePowerup := PowerupLabel(kind);
    }

    /** The speed boost's expiry callback. It carries no generation check: the
        multiplier goes back to 1 (and a live car loses its tint and label)
        even when a later pickup is still running. */
    method ExpireSpeedBoost()
      requires Valid() && pendingSpeedExpiries > 0
      modifies this`speedMultiplier, this`tint, this`activePowerup, this`pendingSpeedExpiries
      ensures Valid()
      ensures speedMultiplier == 1.0
      ensures tint == (if alive then Untinted else old(tint))
      ensures activePowerup == (if alive then "" else old(activePowerup))
      ensures pendingSpeedExpiries == old(pendingSpeedExpiries) - 1
    {
      speedMultiplier := 1.0;
      if alive {
        tint := Untinted;
        activePowerup := "";
      }
      pendingSpeedExpiries := pendingSpeedExpiries - 1;
    }

    /** The mega ram's expiry callback, with the same lack of a generation check. */
    method ExpireMegaRam()
      requires Valid() && pendingRamExpiries > 0
      modifies this`damageMultiplier, this`tint, this`activePowerup, this`pendingRamExpiries
      ensures Valid()
      ensures damageMultiplier == 1.0
      ensures tint == (if alive then Untinted else old(tint))
      ensures activePowerup == (if alive then "" else old(activePowerup))
      ensures pendingRamExpiries == old(pendingRamExpiries) - 1
    {
      damageMultiplier := 1.0;
      if alive {
        tint := Untinted;
        activePowerup := "";
      }
      pendingRamExpiries := pendingRamExpiries - 1;
    }

    /** addScore(points) at scene time `now`, by the shared scoring rule. */
    method AddScore(points: int, now: real)
      modifies this`score, this`combo, this`lastHitTime
      ensures ScoreCard() == Combat.AddScore(old(ScoreCard()), points, now)
    {
      if now - lastHitTime < COMBO_WINDOW {
        combo := combo + 1;
      } else {
        combo := 0;
      }
      lastHitTime := now;
      score := score + JsRound(points as real * (1.0 + combo as real * COMBO_MULTIPLIER));
    }

    /** An oil slick: the car spins at the drawn rate and its drag drops to 0.55
        of the player's base drag until the restore callback runs. */
    method SlipOnOil(spin: real)
      modifies this`body, this`pendingOilRestores
      ensures body == Slipping(old(body), spin, OilSlickDrag(PLAYER_DRAG))
      ensures pendingOilRestores == old(pendingOilRestores) + 1
    {
      body := Slipping(body, spin, OilSlickDrag(PLAYER_DRAG));
      pendingOilRestores := pendingOilRestores + 1;
    }

    /** The oil slick's restore callback: a live car stops spinning and gets its
        base drag back. */
    method ExpireOilSlick()
      requires pendingOilRestores > 0
      modifies this`body, this`pendingOilRestores
      ensures body == if alive then Recovered(old(body), PLAYER_DRAG) else old(body)
      ensures pendingOilRestores == old(pendingOilRestores) - 1
    {
      if alive {
        body := Recovered(body, PLAYER_DRAG);
      }
      pendingOilRestores := pendingOilRestores - 1;
    }
  }
}
