/** The rules the two car classes and the game scene share: how a hit is
    absorbed or taken, how points are credited with the combo multiplier, which
    tint a car shows, how the player's controls and the AI's heading become
    physics commands, how an AI car picks a new target, and the pitfall rules. */
module Combat {
  import opened Config

  function Max(a: real, b: real): real
  {
    if a >= b then a else b
  }

  function Min(a: real, b: real): real
  {
    if a <= b then a else b
  }

  // ---------------------------------------------------------------------
  // Damage

  /** The health part of a car, the same in Player and AiCar. */
  datatype Vitals = Vitals(hp: real, shieldHits: int, invulnerable: bool, alive: bool)

  /** What both car classes keep true: hp is never negative, the shield count
      never negative, and the car is alive exactly while it has hp left. */
  predicate Sound(v: Vitals)
  {
    0.0 <= v.hp && 0 <= v.shieldHits && (v.alive <==> v.hp > 0.0)
  }

  /** takeDamage(amount), the same in Player and AiCar: a hit is ignored while the
      car is invulnerable or dead (checked before the shield); otherwise a shield
      absorbs it whole, without starting invulnerability; otherwise hp drops,
      clamped at zero, invulnerability starts, and the car dies if no hp is left. */
  function TakeDamage(v: Vitals, amount: real): (r: Vitals)
    ensures v.invulnerable || !v.alive ==> r == v
    ensures v.alive && !v.invulnerable && v.shieldHits > 0 ==>
      r.hp == v.hp && r.shieldHits == v.shieldHits - 1 && !r.invulnerable && r.alive
    ensures v.alive && !v.invulnerable && v.shieldHits <= 0 ==>
      r.hp == Max(0.0, v.hp - amount) && r.invulnerable && r.shieldHits == v.shieldHits
    ensures Sound(v) ==> Sound(r)
    ensures !v.alive ==> !r.alive
    ensures v.alive && !r.alive <==> v.alive && !v.invulnerable && v.shieldHits <= 0 && v.hp <= amount
    ensures amount >= 0.0 && v.hp >= 0.0 ==> r.hp <= v.hp
    ensures r.hp != v.hp ==> v.alive && !v.invulnerable && v.shieldHits <= 0
  {
    if v.invulnerable || !v.alive then v
    else if v.shieldHits > 0 then v.(shieldHits := v.shieldHits - 1)
    else
      var hp := Max(0.0, v.hp - amount);
      v.(hp := hp, invulnerable := true, alive := !(hp <= 0.0))
  }

  /** Whether a hit on a car with these vitals reaches its hp: the car is alive,
      not invulnerable and has no shield left. */
  predicate Struck(v: Vitals)
  {
    v.alive && !v.invulnerable && v.shieldHits <= 0
  }

  /** Whether a hit on a car with these vitals uses up its last shield. */
  predicate ShieldEmptied(v: Vitals)
  {
    v.alive && !v.invulnerable && v.shieldHits == 1
  }

  /** Whether a hit of this amount kills a car that was alive. */
  predicate Kills(v: Vitals, amount: real)
  {
    v.alive && !TakeDamage(v, amount).alive
  }

  /** A single event in a car's health history: a hit, the end of the
      invulnerability window (its 500 ms timer), or a shield pickup (which the
      scene only hands to a live car). */
  datatype HealthEvent = Hit(amount: real) | InvulnerabilityEnds | ShieldPickup(hits: int)

  function Step(v: Vitals, e: HealthEvent): Vitals
  {
    match e
    case Hit(amount) => TakeDamage(v, amount)
    case InvulnerabilityEnds => v.(invulnerable := false)
    case ShieldPickup(hits) => if v.alive then v.(shieldHits := hits) else v
  }

  function Run(v: Vitals, es: seq<HealthEvent>): Vitals
    decreases |es|
  {
    if es == [] then v else Run(Step(v, es[0]), es[1..])
  }

  /** How many times the car goes from alive to dead along the history. */
  function Deaths(v: Vitals, es: seq<HealthEvent>): nat
    decreases |es|
  {
    if es == [] then 0
    else (if v.alive && !Step(v, es[0]).alive then 1 else 0) + Deaths(Step(v, es[0]), es[1..])
  }

  predicate Harmless(e: HealthEvent)
  {
    match e
    case Hit(amount) => amount >= 0.0
    case InvulnerabilityEnds => true
    case ShieldPickup(hits) => hits >= 0
  }

  /** Destruction is final: a dead car stays dead and keeps its hp whatever
      happens to it afterwards. */
  lemma {:induction false} DeathIsFinal(v: Vitals, es: seq<HealthEvent>)
    requires !v.alive
    ensures !Run(v, es).alive && Run(v, es).hp == v.hp
    ensures Deaths(v, es) == 0
    decreases |es|
  {
    if es != [] {
      DeathIsFinal(Step(v, es[0]), es[1..]);
    }
  }

  /** A car dies at most once, so the destroyed notification fires at most once
      per car. */
  lemma {:induction false} DiesAtMostOnce(v: Vitals, es: seq<HealthEvent>)
    ensures Deaths(v, es) <= 1
    ensures Deaths(v, es) == 1 <==> v.alive && !Run(v, es).alive
    decreases |es|
  {
    if es != [] {
      var w := Step(v, es[0]);
      if v.alive && !w.alive {
        DeathIsFinal(w, es[1..]);
      } else if !v.alive {
        DeathIsFinal(v, es);
      } else {
        DiesAtMostOnce(w, es[1..]);
      }
    }
  }

  /** While the invulnerability window is open, no number of hits of any size
      changes the car's health. */
  lemma {:induction false} InvulnerableWindowBlocksHits(v: Vitals, es: seq<HealthEvent>)
    requires v.invulnerable
    requires forall i :: 0 <= i < |es| ==> es[i].Hit?
    ensures Run(v, es) == v
    decreases |es|
  {
    if es != [] {
      InvulnerableWindowBlocksHits(v, es[1..]);
    }
  }

  /** With non-negative damage, hp stays within [0, maxHp] and the car stays
      sound along any history. */
  lemma {:induction false} HpStaysInRange(v: Vitals, es: seq<HealthEvent>, maxHp: real)
    requires Sound(v) && v.hp <= maxHp
    requires forall i :: 0 <= i < |es| ==> Harmless(es[i])
    ensures Sound(Run(v, es)) && 0.0 <= Run(v, es).hp <= v.hp <= maxHp
    decreases |es|
  {
    if es != [] {
      HpStaysInRange(Step(v, es[0]), es[1..], maxHp);
    }
  }

  // ---------------------------------------------------------------------
  // Scoring

  /** The player's scoring state. */
  datatype ScoreState = ScoreState(score: int, combo: nat, lastHitTime: real)

  /** JavaScript's Math.round: the nearest integer, halves rounded up. */
  function JsRound(x: real): int
  {
    (x + 0.5).Floor
  }

  /** addScore(points) at scene time `now`: the combo grows when the previous
      scoring event was less than COMBO_WINDOW ago and resets otherwise; the
      credit is round(points * (1 + combo * COMBO_MULTIPLIER)), which for these
      constants is points + (points * combo + 1) div 2. */
  function AddScore(s: ScoreState, points: int, now: real): (r: ScoreState)
    ensures r.lastHitTime == now
    ensures now - s.lastHitTime < COMBO_WINDOW ==> r.combo == s.combo + 1
    ensures now - s.lastHitTime >= COMBO_WINDOW ==> r.combo == 0
    ensures r.score == s.score + points + (points * r.combo + 1) / 2
    ensures points >= 0 ==> r.score >= s.score + points
  {
    var combo := if now - s.lastHitTime < COMBO_WINDOW then s.combo + 1 else 0;
    RoundedCredit(points, combo);
    ScoreState(s.score + JsRound(points as real * (1.0 + combo as real * COMBO_MULTIPLIER)), combo, now)
  }

  /** With integer points and a multiplier of one half, rounding never meets
      anything but a whole or a half: the credit is p + (p * c + 1) div 2. */
  lemma RoundedCredit(p: int, c: nat)
    ensures JsRound(p as real * (1.0 + c as real * 0.5)) == p + (p * c + 1) / 2
  {
    var n := p * c;
    var q, m := (n + 1) / 2, (n + 1) % 2;
    assert n + 1 == 2 * q + m;
    assert (p * c) as real == p as real * c as real;
    assert p as real * (1.0 + c as real * 0.5) + 0.5 == (p + q) as real + m as real / 2.0;
  }

  /** Two hits 500 ms apart credit 10 then 15; a third hit 3000 ms after the
      second resets the combo and credits 10 again. */
  lemma ComboScenario(s: ScoreState, t: real)
    requires t - s.lastHitTime >= COMBO_WINDOW
    ensures AddScore(s, SCORE_HIT, t).score == s.score + 10
    ensures AddScore(AddScore(s, SCORE_HIT, t), SCORE_HIT, t + 500.0).score == s.score + 25
    ensures AddScore(AddScore(AddScore(s, SCORE_HIT, t), SCORE_HIT, t + 500.0), SCORE_HIT, t + 3500.0).score
            == s.score + 35
  {
  }

  // ---------------------------------------------------------------------
  // Physics body and tints

  /** What a car's physics body holds that the core reads or commands: position,
      velocity, the angular velocity, the signed acceleration along the heading,
      the drag, the speed clamp, and whether the body takes part in the
      simulation. */
  datatype Body = Body(x: real, y: real, vx: real, vy: real, angularVelocity: real,
                       acceleration: real, drag: real, maxVelocity: real, enabled: bool)

  /** A body at rest at (x, y) with the given drag and speed clamp. */
  function RestingBody(x: real, y: real, drag: real, maxVelocity: real): Body
  {
    Body(x, y, 0.0, 0.0, 0.0, 0.0, drag, maxVelocity, true)
  }

  /** Where a body is and how fast it moves. */
  function Motion(b: Body): (real, real, real, real)
  {
    (b.x, b.y, b.vx, b.vy)
  }

  /** relativeSpeed(a, b): the length of the difference of the two velocities. */
  predicate IsRelativeSpeed(relSpeed: real, a: Body, b: Body)
  {
    relSpeed >= 0.0 &&
    relSpeed * relSpeed == (a.vx - b.vx) * (a.vx - b.vx) + (a.vy - b.vy) * (a.vy - b.vy)
  }

  /** body.velocity.length(). */
  predicate IsSpeed(speed: real, b: Body)
  {
    speed >= 0.0 && speed * speed == b.vx * b.vx + b.vy * b.vy
  }

  /** `body.enable = on`: the body joins (true) or leaves (false) the
      simulation, the rest of it as it was. */
  function WithEnabled(b: Body, on: bool): Body
  {
    b.(enabled := on)
  }

  /** The player's drive commands applied to its body. */
  function Driven(b: Body, c: DriveCommand): Body
  {
    b.(angularVelocity := c.angularVelocity, acceleration := c.acceleration, drag := c.drag,
       maxVelocity := c.maxVelocity)
  }

  /** An oil slick's effect on a body: the drawn spin and the lowered drag. */
  function Slipping(b: Body, spin: real, drag: real): Body
  {
    b.(angularVelocity := spin, drag := drag)
  }

  /** The end of an oil slick: no spin, and the base drag back. */
  function Recovered(b: Body, drag: real): Body
  {
    b.(angularVelocity := 0.0, drag := drag)
  }

  /** endGame's freeze of an AI body: no thrust, and a drag of 600. */
  function Halted(b: Body): Body
  {
    b.(acceleration := 0.0, drag := 600.0)
  }

  /** relocateCar: a reset body stands still at the new point. */
  function Relocated(b: Body, x: real, y: real): Body
  {
    b.(x := x, y := y, vx := 0.0, vy := 0.0, angularVelocity := 0.0, acceleration := 0.0)
  }

  /** A spike strip keeps 0.3 of the car's velocity. */
  function Slowed(b: Body): Body
  {
    b.(vx := b.vx * 0.3, vy := b.vy * 0.3)
  }

  /** A sprite tint: none, or one RGB colour. */
  datatype Tint = Untinted | Tinted(rgb: int)

  const HIT_FLASH_COLOR: int := 0xff0000

  function DigitChar(d: nat): char
    requires d < 10
  {
    "0123456789"[d]
  }

  /** A whole number in decimal, as a template literal prints it. */
  function Decimal(n: nat): (s: string)
    ensures |s| >= 1
  {
    if n < 10 then [DigitChar(n)] else Decimal(n / 10) + [DigitChar(n % 10)]
  }

  /** The HUD label of each power-up (`SHIELD x${hits}` for the shield). */
  function PowerupLabel(k: PowerupKind): string
  {
    match k
    case Speed => "SPEED BOOST"
    case Shield => "SHIELD x" + Decimal(SHIELD_HITS as nat)
    case MegaRam => "MEGA RAM"
  }

  /** The tint each power-up puts on the car that picks it up. */
  function PowerupTint(k: PowerupKind): Tint
  {
    match k
    case Speed => Tinted(SPEED_COLOR)
    case Shield => Tinted(SHIELD_COLOR)
    case MegaRam => Tinted(MEGA_RAM_COLOR)
  }

  lemma ShieldLabelText()
    ensures PowerupLabel(Shield) == "SHIELD x2"
  {
  }

  /** restoreTint(): the power-up tint back after the red hit flash, with
      precedence speed boost > shield > mega ram > none. */
  function RestoredTint(speedMultiplier: real, shieldHits: int, damageMultiplier: real): (t: Tint)
    ensures t == Tinted(SPEED_COLOR) <==> speedMultiplier > 1.0
    ensures t == Tinted(SHIELD_COLOR) <==> !(speedMultiplier > 1.0) && shieldHits > 0
    ensures t == Tinted(MEGA_RAM_COLOR) <==> !(speedMultiplier > 1.0) && shieldHits <= 0 && damageMultiplier > 1.0
    ensures t == Untinted <==> !(speedMultiplier > 1.0) && shieldHits <= 0 && !(damageMultiplier > 1.0)
  {
    if speedMultiplier > 1.0 then Tinted(SPEED_COLOR)
    else if shieldHits > 0 then Tinted(SHIELD_COLOR)
    else if damageMultiplier > 1.0 then Tinted(MEGA_RAM_COLOR)
    else Untinted
  }

  // ---------------------------------------------------------------------
  // Driving

  /** The keys held this frame (arrows or WASD, and space for the brake). */
  datatype ControlIntent = ControlIntent(left: bool, right: bool, up: bool, down: bool, brake: bool)

  /** The commands the player's update issues to the physics body. The
      acceleration is the signed magnitude along the car's heading. */
  datatype DriveCommand = DriveCommand(angularVelocity: real, acceleration: real, drag: real, maxVelocity: real)

  /** Turning only bites when moving: the factor grows with speed up to 80. */
  function TurnFactor(speed: real): (f: real)
    requires speed >= 0.0
    ensures 0.0 <= f <= 1.0
    ensures speed >= 80.0 ==> f == 1.0
  {
    Min(speed / 80.0, 1.0)
  }

  /** The decision part of the player's update. */
  function PlayerDrive(intent: ControlIntent, speed: real, speedMultiplier: real): (c: DriveCommand)
    requires speed >= 0.0
    ensures -PLAYER_TURN_SPEED <= c.angularVelocity <= PLAYER_TURN_SPEED
    ensures c.angularVelocity < 0.0 ==> intent.left
    ensures c.angularVelocity > 0.0 ==> !intent.left && intent.right
    ensures !intent.left && !intent.right ==> c.angularVelocity == 0.0
    ensures intent.left ==> c.angularVelocity == -PLAYER_TURN_SPEED * TurnFactor(speed)
    ensures !intent.left && intent.right ==> c.angularVelocity == PLAYER_TURN_SPEED * TurnFactor(speed)
    ensures c.acceleration == if intent.up then PLAYER_ACCELERATION
                              else if intent.down then -0.5 * PLAYER_ACCELERATION
                              else 0.0
    ensures c.drag == if intent.brake then 5.0 * PLAYER_DRAG else PLAYER_DRAG
    ensures c.maxVelocity == PLAYER_MAX_SPEED * speedMultiplier
  {
    var f := TurnFactor(speed);
    var turn := if intent.left then -PLAYER_TURN_SPEED * f
                else if intent.right then PLAYER_TURN_SPEED * f
                else 0.0;
    var accel := if intent.up then PLAYER_ACCELERATION
                 else if intent.down then -PLAYER_ACCELERATION * 0.5
                 else 0.0;
    var drag := if intent.brake then PLAYER_DRAG * 5.0 else PLAYER_DRAG;
    DriveCommand(turn, accel, drag, PLAYER_MAX_SPEED * speedMultiplier)
  }

  /** The AI turns at full rate toward the sign of the wrapped heading
      difference, and holds straight inside a 0.1 rad dead band. */
  function AiTurn(diff: real): (w: real)
    ensures w == AI_TURN_SPEED <==> diff > 0.1
    ensures w == -AI_TURN_SPEED <==> diff < -0.1
    ensures w == 0.0 <==> -0.1 <= diff <= 0.1
  {
    if diff > 0.1 || diff < -0.1 then (if diff > 0.0 then AI_TURN_SPEED else -AI_TURN_SPEED) else 0.0
  }

  /** The AI's per-frame commands: the turn toward the target and full thrust
      scaled by its speed multiplier. */
  function AiSteer(b: Body, speedMultiplier: real, diff: real): Body
  {
    b.(angularVelocity := AiTurn(diff), acceleration := AI_ACCELERATION * speedMultiplier)
  }

  // ---------------------------------------------------------------------
  // AI targeting

  /** A uniform draw of Math.random(). */
  predicate IsDraw(d: real)
  {
    0.0 <= d < 1.0
  }

  predicate AllDraws(ds: seq<real>)
  {
    forall i :: 0 <= i < |ds| ==> IsDraw(ds[i])
  }

  /** The AI's new target point and the time of its next retarget. */
  datatype Retarget = Retarget(targetX: real, targetY: real, nextTargetTime: real)

  /** The AI chases the player when the player is alive and the first draw is
      below its aggression (the draw is only taken when the player is alive). */
  predicate ChasesPlayer(playerAlive: bool, aggression: real, draws: seq<real>)
    requires |draws| >= 1
  {
    playerAlive && draws[0] < aggression
  }

  /** chooseTarget(time). `draws` are the successive Math.random() results, in
      the order the source takes them. */
  function ChooseTarget(time: real, aggression: real, playerAlive: bool, playerX: real, playerY: real,
                        draws: seq<real>): (r: Retarget)
    requires |draws| >= 4 && AllDraws(draws)
    ensures ChasesPlayer(playerAlive, aggression, draws) ==>
      r.targetX == playerX && r.targetY == playerY &&
      time + 800.0 <= r.nextTargetTime < time + 2000.0
    ensures !ChasesPlayer(playerAlive, aggression, draws) ==>
      60.0 <= r.targetX < 740.0 && 60.0 <= r.targetY < 540.0 &&
      time + AI_TARGET_SWITCH_TIME <= r.nextTargetTime < time + 4000.0
  {
    if playerAlive && draws[0] < aggression then
      Retarget(playerX, playerY, time + 800.0 + draws[1] * 1200.0)
    else
      // A dead player short-circuits the aggression roll, so the point uses
      // the first draws; otherwise it uses the ones after the roll.
      var k := if playerAlive then 1 else 0;
      Retarget(60.0 + draws[k] * 680.0, 60.0 + draws[k + 1] * 480.0,
               time + AI_TARGET_SWITCH_TIME + draws[k + 2] * 2000.0)
  }

  /** aggression = AI.AGGRESSION + Math.random() * 0.2. */
  function Aggression(draw: real): (a: real)
    requires IsDraw(draw)
    ensures 0.35 <= a < 0.55
  {
    AI_AGGRESSION + draw * 0.2
  }

  // ---------------------------------------------------------------------
  // Arena positions and pitfalls

  datatype Point = Point(x: real, y: real)

  /** safePosition(): a uniform point 70 units in from each edge of the game
      area. */
  function SafePosition(rx: real, ry: real): (p: Point)
    requires IsDraw(rx) && IsDraw(ry)
    ensures 70.0 <= p.x < 730.0 && 70.0 <= p.y < 530.0
    ensures INNER_X <= p.x <= INNER_X + INNER_W && INNER_Y <= p.y <= INNER_Y + INNER_H
  {
    Point(70.0 + rx * (GAME_WIDTH - 140.0), 70.0 + ry * (GAME_HEIGHT - 140.0))
  }

  /** `x | 0` for an arena coordinate: truncation toward zero. */
  function TruncateToInt(x: real): (n: int)
    ensures x >= 0.0 ==> n as real <= x < n as real + 1.0
    ensures x < 0.0 ==> n as real - 1.0 < x <= n as real
  {
    if x >= 0.0 then x.Floor else -((-x).Floor)
  }

  /** The per-car debounce stamp key of a pit, built from its truncated
      coordinates. */
  type PitKey = (int, int)

  function PitKeyOf(x: real, y: real): PitKey
  {
    (TruncateToInt(x), TruncateToInt(y))
  }

  /** A trigger is ignored when the car holds a non-zero stamp for this pit
      from less than 1000 ms ago (a stamp of 0 is falsy and does not count). */
  predicate Debounced(stamps: map<PitKey, real>, key: PitKey, now: real)
  {
    key in stamps && stamps[key] != 0.0 && now - stamps[key] < 1000.0
  }

  /** A second trigger of the same pit by the same car within one second of a
      (non-zero) first is ignored; a trigger a second or more later is not. */
  lemma DebounceWindow(stamps: map<PitKey, real>, key: PitKey, other: PitKey, t: real, dt: real)
    requires t != 0.0 && other != key
    ensures Debounced(stamps[key := t], key, t + dt) <==> dt < 1000.0
    ensures Debounced(stamps[key := t], other, t + dt) <==> Debounced(stamps, other, t + dt)
  {
  }

  /** The drag an oil slick sets while it lasts: 0.55 of the car's base drag. */
  function OilSlickDrag(baseDrag: real): (d: real)
    requires baseDrag > 0.0
    ensures 0.0 < d < baseDrag
  {
    baseDrag * 0.55
  }

  /** A JavaScript value read as a number: a number, NaN, or undefined. */
  datatype JsNumber = Num(value: real) | NaN | Undefined

  function JsTimes(x: JsNumber, k: real): JsNumber
  {
    match x
    case Num(v) => Num(v * k)
    case _ => NaN
  }

  /** The oil slick handler as written: it reads `car.baseDrag`, a property
      neither car class ever assigns, so the lookup is undefined. */
  function OilSlickDragAsWritten(carBaseDrag: JsNumber): JsNumber
  {
    JsTimes(carBaseDrag, 0.55)
  }

  /** As written, the slick sets the drag to NaN and the timer's restore passes
      undefined, where 0.55 of the base drag and the base drag were intended. */
  lemma OilSlickDragIsNotANumber()
    ensures OilSlickDragAsWritten(Undefined) == NaN
    ensures OilSlickDragAsWritten(Undefined) != Num(OilSlickDrag(PLAYER_DRAG))
    ensures OilSlickDragAsWritten(Undefined) != Num(OilSlickDrag(AI_DRAG))
  {
  }
}
