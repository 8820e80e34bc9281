/** A seek-and-ram opponent. Its health follows the same damage rule as the
    player's car; it steers toward a target that it re-picks on a timer, and it
    tells the scene when it is destroyed (here: TakeDamage reports it, and the
    scene runs its destroyed handler). */
module Opponent {
  import opened Config
  import opened Combat

  class AiCar {
    const maxHp: real
    const textureKey: string
    const monsterName: string
    const aggression: real
    var hp: real
    var alive: bool
    /** The sprite's active flag; disableBody(true, true) clears it. */
    var active: bool
    var shieldHits: int
    var speedMultiplier: real
    var damageMultiplier: real
    var invulnerable: bool
    var tint: Tint
    /** The point it steers to (targetX, targetY) and when it re-picks it
        (nextTargetTime). */
    var target: Retarget
    var body: Body
    /** The per-pitfall debounce stamps the scene writes on the car. */
    var pitStamps: map<PitKey, real>
    var pendingFlashes: nat
    var pendingSpeedExpiries: nat
    var pendingRamExpiries: nat
    var pendingOilRestores: nat

    function Health(): Vitals
      reads this`hp, this`shieldHits, this`invulnerable, this`alive
    {
      Vitals(hp, shieldHits, invulnerable, alive)
    }

    /** The class invariant: the aggression in its drawn range, sound health,
        the sprite active exactly while alive, each multiplier at 1 or its boost
        value (both may be boosted at once: an AI pickup does not reset the
        other one), and a boosted multiplier has its expiry scheduled. It does
        not read the physics body. */
    ghost predicate Valid()
      reads this`hp, this`shieldHits, this`invulnerable, this`alive, this`active,
            this`speedMultiplier, this`damageMultiplier, this`pendingSpeedExpiries, this`pendingRamExpiries
    {
      maxHp == AI_HP && 0.35 <= aggression < 0.55 &&
      Sound(Vitals(hp, shieldHits, invulnerable, alive)) && active == alive &&
      (speedMultiplier == 1.0 || speedMultiplier == SPEED_MULTIPLIER) &&
      (damageMultiplier == 1.0 || damageMultiplier == MEGA_RAM_MULTIPLIER) &&
      (speedMultiplier != 1.0 ==> pendingSpeedExpiries > 0) &&
      (damageMultiplier != 1.0 ==> pendingRamExpiries > 0)
    }

    /** new AiCar(scene, x, y, textureKey, name); `draw` is the Math.random()
        result its aggression is made from. */
    constructor(x: real, y: real, texture: string, name: string, draw: real)
      requires IsDraw(draw)
      ensures Valid()
      ensures textureKey == texture && monsterName == name && maxHp == AI_HP
      ensures aggression == Aggression(draw)
      ensures Health() == Vitals(AI_HP, 0, false, true) && active
      ensures speedMultiplier == 1.0 && damageMultiplier == 1.0 && tint == Untinted
      ensures target == Retarget(x, y, 0.0)
      ensures body == RestingBody(x, y, AI_DRAG, AI_MAX_SPEED)
      ensures pitStamps == map[]
      ensures pendingFlashes == pendingSpeedExpiries == pendingRamExpiries == pendingOilRestores == 0
    {
      maxHp := AI_HP;
      textureKey := texture;
      monsterName := name;
      aggression := Aggression(draw);
      hp := AI_HP;
      alive := true;
      active := true;
      shieldHits := 0;
      speedMultiplier := 1.0;
      damageMultiplier := 1.0;
      invulnerable := false;
      tint := Untinted;
      target := Retarget(x, y, 0.0);
      body := RestingBody(x, y, AI_DRAG, AI_MAX_SPEED);
      pitStamps := map[];
      pendingFlashes := 0;
      pendingSpeedExpiries := 0;
      pendingRamExpiries := 0;
      pendingOilRestores := 0;
    }

    /** chooseTarget(time): chase the player or wander to a random point. */
    method ChooseTarget(time: real, playerAlive: bool, playerX: real, playerY: real, draws: seq<real>)
      requires |draws| >= 4 && AllDraws(draws)
      modifies this`target
      ensures target == Combat.ChooseTarget(time, aggression, playerAlive, playerX, playerY, draws)
    {
      if playerAlive && draws[0] < aggression {
        target := Retarget(playerX, playerY, time + 800.0 + draws[1] * 1200.0);
      } else {
        var k := if playerAlive then 1 else 0;
        target := Retarget(60.0 + draws[k] * 680.0, 60.0 + draws[k + 1] * 480.0,
                           time + AI_TARGET_SWITCH_TIME + draws[k + 2] * 2000.0);
      }
    }

    /** update(time): a live car re-picks its target once the switch time has
        strictly passed, turns toward it (`diff` is the wrapped angle from its
        heading to the target) and accelerates at its boosted rate. */
    method Update(time: real, playerAlive: bool, playerX: real, playerY: real, draws: seq<real>, diff: real)
      requires |draws| >= 4 && AllDraws(draws)
      modifies this`target, this`body
      ensures target == if alive && time > old(target.nextTargetTime)
                          then Combat.ChooseTarget(time, aggression, playerAlive, playerX, playerY, draws)
                          else old(target)
      ensures body == if alive then AiSteer(old(body), speedMultiplier, diff) else old(body)
    {
      if !alive {
        return;
      }
      if time > target.nextTargetTime {
        ChooseTarget(time, playerAlive, playerX, playerY, draws);
      }
      body := AiSteer(body, speedMultiplier, diff);
    }

    /** The marks a hit leaves on a car whose health was v before it: a hit that
        reaches the hp tints the car red and schedules the tint's clearing; a
        shield hit or an ignored one leaves both alone. */
    twostate predicate Marked(v: Vitals)
      reads this`tint, this`pendingFlashes
    {
      tint == (if Struck(v) then Tinted(HIT_FLASH_COLOR) else old(tint)) &&
      pendingFlashes == old(pendingFlashes) + (if Struck(v) then 1 else 0)
    }

    /** takeDamage(amount), by the shared damage rule; a real hit flashes red,
        a shield hit leaves the tint alone. `destroyed` is whether this hit
        killed the car, which is when die() calls the scene back. */
    method TakeDamage(amount: real) returns (destroyed: bool)
      requires Valid()
      modifies this`hp, this`shieldHits, this`invulnerable, this`alive, this`active, this`tint,
               this`pendingFlashes, this`body
      ensures Valid()
      ensures Health() == Combat.TakeDamage(old(Health()), amount)
      ensures destroyed <==> old(alive) && !alive
      ensures Marked(old(Health()))
      ensures body == if destroyed then WithEnabled(old(body), false) else old(body)
    {
      destroyed := false;
      if invulnerable || !alive {
        return;
      }
      if shieldHits > 0 {
        shieldHits := shieldHits - 1;
        return;
      }
      hp := Max(0.0, hp - amount);
      tint := Tinted(HIT_FLASH_COLOR);
      pendingFlashes := pendingFlashes + 1;
      invulnerable := true;
      if hp <= 0.0 {
        Die();
        destroyed := true;
      }
    }

    /** die(): dead, and the body leaves the simulation. */
    method Die()
      modifies this`alive, this`active, this`body
      ensures !alive && !active && body == WithEnabled(old(body), false)
    {
      alive := false;
      active := false;
      body := WithEnabled(body, false);
    }

    /** The 500 ms callback that ends the invulnerability window (pending
        exactly while the car is invulnerable). */
    method ExpireInvulnerability()
      requires Valid() && invulnerable
      modifies this`invulnerable
      ensures Valid() && !invulnerable
    {
      invulnerable := false;
    }

    /** The 120 ms callback that ends the red flash: a live AI car is simply
        untinted, dropping any power-up tint. */
    method ExpireFlash()
      requires Valid() && pendingFlashes > 0
      modifies this`tint, this`pendingFlashes
      ensures Valid()
      ensures tint == if alive then Untinted else old(tint)
      ensures pendingFlashes == old(pendingFlashes) - 1
    {
      pendingFlashes := pendingFlashes - 1;
      if alive {
        tint := Untinted;
      }
    }

    /** The speed boost's expiry callback, scheduled by the scene; like the
        player's, it has no generation check. */
    method ExpireSpeedBoost()
      requires Valid() && pendingSpeedExpiries > 0
      modifies this`speedMultiplier, this`tint, this`pendingSpeedExpiries
      ensures Valid()
      ensures speedMultiplier == 1.0 && tint == (if alive then Untinted else old(tint))
      ensures pendingSpeedExpiries == old(pendingSpeedExpiries) - 1
    {
      speedMultiplier := 1.0;
      if alive {
        tint := Untinted;
      }
      pendingSpeedExpiries := pendingSpeedExpiries - 1;
    }

    /** The mega ram's expiry callback, scheduled by the scene. */
    method ExpireMegaRam()
      requires Valid() && pendingRamExpiries > 0
      modifies this`damageMultiplier, this`tint, this`pendingRamExpiries
      ensures Valid()
      ensures damageMultiplier == 1.0 && tint == (if alive then Untinted else old(tint))
      ensures pendingRamExpiries == old(pendingRamExpiries) - 1
    {
      damageMultiplier := 1.0;
      if alive {
        tint := Untinted;
      }
      pendingRamExpiries := pendingRamExpiries - 1;
    }

    /** What the scene's applyPowerupToAi(ai, type) writes on the car: the
        picked multiplier or the shield, the power-up's tint, and for a timed
        power-up its expiry scheduled. The other multiplier keeps its value. */
    method Empower(kind: PowerupKind)
      requires Valid()
      modifies this`speedMultiplier, this`damageMultiplier, this`shieldHits, this`tint,
               this`pendingSpeedExpiries, this`pendingRamExpiries
      ensures Valid()
      ensures speedMultiplier == if kind == Speed then SPEED_MULTIPLIER else old(speedMultiplier)
      ensures damageMultiplier == if kind == MegaRam then MEGA_RAM_MULTIPLIER else old(damageMultiplier)
      ensures shieldHits == if kind == Shield then SHIELD_HITS else old(shieldHits)
      ensures tint == PowerupTint(kind)
      ensures pendingSpeedExpiries == old(pendingSpeedExpiries) + (if kind == Speed then 1 else 0)
      ensures pendingRamExpiries == old(pendingRamExpiries) + (if kind == MegaRam then 1 else 0)
    {
      match kind
      case Speed =>
        speedMultiplier := SPEED_MULTIPLIER;
        tint := Tinted(SPEED_COLOR);
        pendingSpeedExpiries := pendingSpeedExpiries + 1;
      case Shield =>
        shieldHits := SHIELD_HITS;
        tint := Tinted(SHIELD_COLOR);
      case MegaRam =>
        damageMultiplier := MEGA_RAM_MULTIPLIER;
        tint := Tinted(MEGA_RAM_COLOR);
        pendingRamExpiries := pendingRamExpiries + 1;
    }

    /** An oil slick: the car spins at the drawn rate and its drag drops to 0.55
        of the AI base drag until the restore callback runs. */
    method SlipOnOil(spin: real)
      modifies this`body, this`pendingOilRestores
      ensures body == Slipping(old(body), spin, OilSlickDrag(AI_DRAG))
      ensures pendingOilRestores == old(pendingOilRestores) + 1
    {
      body := Slipping(body, spin, OilSlickDrag(AI_DRAG));
      pendingOilRestores := pendingOilRestores + 1;
    }

    /** The oil slick's restore callback: a live car stops spinning and gets its
        base drag back. */
    method ExpireOilSlick()
      requires pendingOilRestores > 0
      modifies this`body, this`pendingOilRestores
      ensures body == if alive then Recovered(old(body), AI_DRAG) else old(body)
      ensures pendingOilRestores == old(pendingOilRestores) - 1
    {
      if alive {
        body := Recovered(body, AI_DRAG);
      }
      pendingOilRestores := pendingOilRestores - 1;
    }
  }
}
