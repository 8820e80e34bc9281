/** The scene's state as values, and the rules it keeps: the game state and
    how it advances, the power-ups and pitfalls on the field, and the
    invariants of the flow and of the field. */
module SceneRules {
  import opened Config
  import opened Combat
  import opened PlayerCar
  import opened Opponent

  /** The scene's game state; it only moves forward. */
  datatype GameState = Countdown | Playing | GameOver

  /** The argument endGame was called with, once it has been. */
  datatype Outcome = Undecided | Decided(victory: bool)

  /** The scene's flow fields: the game state, endGame's outcome, the pending
      report, the two spawn timers' paused flags and the pitfall timer's
      pending delayed start. */
  datatype FlowState = FlowState(gameState: GameState, outcome: Outcome, reportsPending: nat,
                                 powerupTimerPaused: bool, pitfallTimerPaused: bool, pitfallUnpausePending: bool)

  /** endGame(victory)'s changes to the flow: over with that outcome, both
      timers paused, the report scheduled. */
  function Ended(f: FlowState, victory: bool): FlowState
  {
    f.(gameState := GameOver, outcome := Decided(victory), reportsPending := 1,
       powerupTimerPaused := true, pitfallTimerPaused := true)
  }

  /** The flow after an AI car's hit: when the hit destroyed the car and left
      no car alive in a game being played, the destroyed handler ended it as a
      victory; otherwise it is unchanged. */
  function AfterDestroyed(f: FlowState, destroyed: bool, aliveLeft: int): FlowState
  {
    if destroyed && aliveLeft <= 0 && f.gameState == Playing then Ended(f, true) else f
  }

  /** The score after an AI car's destroyed handler credited its bonus, when
      the hit destroyed it. */
  function DestroyBonus(s: ScoreState, destroyed: bool, now: real): ScoreState
  {
    if destroyed then Combat.AddScore(s, SCORE_DESTROY, now) else s
  }

  /** What a hit on an AI car can change outside its body: the car's health,
      the count of AI cars alive, the player's score and the flow. */
  datatype Standing = Standing(car: Vitals, aliveCount: int, score: ScoreState, flow: FlowState)

  /** ai.takeDamage(amount), with the destroyed handler run when the hit
      killed the car: one car fewer, the destroy bonus, and a victory when it
      was the last car of a game being played. */
  function HitOutcome(s: Standing, amount: real, now: real): Standing
  {
    var destroyed := Kills(s.car, amount);
    var left := s.aliveCount - if destroyed then 1 else 0;
    Standing(Combat.TakeDamage(s.car, amount), left, DestroyBonus(s.score, destroyed, now),
             AfterDestroyed(s.flow, destroyed, left))
  }

  /** A pitfall of this kind triggering for an AI car: an oil slick changes
      none of it, a pit hole or a spike strip is a hit of its damage. */
  function PitOutcome(s: Standing, kind: PitfallKind, now: real): Standing
  {
    if kind == OilSlick then s else HitOutcome(s, PitfallDamage(kind), now)
  }

  /** A power-up or pitfall sprite on the field: an identity of its own (the
      sprite object), its type key and its position. */
  datatype Placed<K> = Placed(id: nat, kind: K, pos: Point)

  /** One step of the game state: stay, start playing after the countdown, or
      end a game that is being played. */
  predicate Advances(from: GameState, to: GameState)
  {
    from == to || (from == Countdown && to == Playing) || (from == Playing && to == GameOver)
  }

  function Rank(s: GameState): nat
  {
    match s
    case Countdown => 0
    case Playing => 1
    case GameOver => 2
  }

  /** Along any run of steps the state never goes back, and a game that is over
      stays over. */
  lemma {:induction false} ForwardOnly(states: seq<GameState>)
    requires forall i :: 0 <= i < |states| - 1 ==> Advances(states[i], states[i + 1])
    ensures forall i, j :: 0 <= i <= j < |states| ==> Rank(states[i]) <= Rank(states[j])
    ensures forall i, j :: 0 <= i <= j < |states| && states[i] == GameOver ==> states[j] == GameOver
    decreases |states|
  {
    if |states| > 1 {
      var rest := states[1..];
      assert forall i :: 0 <= i < |rest| - 1 ==> Advances(rest[i], rest[i + 1]) by {
        forall i | 0 <= i < |rest| - 1 ensures Advances(rest[i], rest[i + 1]) {
          assert rest[i] == states[i + 1] && rest[i + 1] == states[i + 2];
        }
      }
      ForwardOnly(rest);
      forall i, j | 0 <= i <= j < |states| ensures Rank(states[i]) <= Rank(states[j]) {
        if 0 < i {
          assert states[i] == rest[i - 1] && states[j] == rest[j - 1];
        } else if 0 < j {
          assert Advances(states[0], states[1]);
          assert states[1] == rest[0] && states[j] == rest[j - 1];
        }
      }
    }
  }

  /** Where the item with this id sits, or -1 when it is no longer on the
      field (the sprite's `active` test). */
  function Find<K>(xs: seq<Placed<K>>, id: nat): (i: int)
    ensures -1 <= i < |xs|
    ensures 0 <= i ==> xs[i].id == id
    ensures i < 0 <==> forall j :: 0 <= j < |xs| ==> xs[j].id != id
    decreases |xs|
  {
    if xs == [] then -1
    else if xs[0].id == id then 0
    else
      var r := Find(xs[1..], id);
      assert forall j :: 1 <= j < |xs| ==> xs[j] == xs[1..][j - 1];
      if r < 0 then -1 else r + 1
  }

  /** destroy(): the item leaves the field, the others keep their order. */
  function Removed<K>(xs: seq<Placed<K>>, i: nat): (r: seq<Placed<K>>)
    requires i < |xs|
    ensures |r| == |xs| - 1
    ensures forall j :: 0 <= j < |r| ==> r[j] == if j < i then xs[j] else xs[j + 1]
  {
    xs[..i] + xs[i + 1..]
  }

  predicate UniqueIds<K>(xs: seq<Placed<K>>)
  {
    forall i, j :: 0 <= i < j < |xs| ==> xs[i].id != xs[j].id
  }

  predicate IdsBelow<K>(xs: seq<Placed<K>>, n: nat)
  {
    forall i :: 0 <= i < |xs| ==> xs[i].id < n
  }

  /** Removing an item keeps the ids unique and bounded, and its id is gone. */
  lemma RemovedKeepsIds<K>(xs: seq<Placed<K>>, i: nat, n: nat)
    requires i < |xs| && UniqueIds(xs) && IdsBelow(xs, n)
    ensures UniqueIds(Removed(xs, i)) && IdsBelow(Removed(xs, i), n)
    ensures Find(Removed(xs, i), xs[i].id) < 0
  {
    var r := Removed(xs, i);
    forall a, b | 0 <= a < b < |r| ensures r[a].id != r[b].id {
      var a', b' := if a < i then a else a + 1, if b < i then b else b + 1;
      assert r[a] == xs[a'] && r[b] == xs[b'];
    }
  }

  /** The flow of the game: the countdown runs exactly in the countdown state;
      the game is over exactly when endGame has decided it; a victory leaves no
      AI car alive and a defeat leaves the player dead; at most one report is
      pending, and only once the game is over; the power-up timer runs only
      while playing, the pitfall timer never during the countdown. */
  predicate FlowValid(gameState: GameState, countdown: int, outcome: Outcome, aiCarsAlive: int,
                      playerAlive: bool, reportsPending: nat, powerupTimerPaused: bool,
                      pitfallTimerPaused: bool, pitfallUnpausePending: bool)
  {
    -1 <= countdown <= 3 && (gameState == Countdown <==> countdown > 0) &&
    (gameState == GameOver <==> outcome.Decided?) &&
    (outcome == Decided(true) ==> aiCarsAlive == 0) &&
    (outcome == Decided(false) ==> !playerAlive) &&
    reportsPending <= 1 && (gameState != GameOver ==> reportsPending == 0) &&
    (!powerupTimerPaused ==> gameState == Playing) &&
    (!pitfallTimerPaused || pitfallUnpausePending ==> gameState != Countdown)
  }

  /** The field: the caps hold, every sprite has its own id below the next
      one, every power-up has its despawn scheduled and every oil slick its
      evaporation. */
  predicate FieldValid(powerups: seq<Placed<PowerupKind>>, pitfalls: seq<Placed<PitfallKind>>, nextId: nat,
                       despawnsPending: set<nat>, evaporationsPending: set<nat>)
  {
    |powerups| <= POWERUP_MAX_COUNT && |pitfalls| <= PITFALL_MAX_COUNT &&
    UniqueIds(powerups) && IdsBelow(powerups, nextId) &&
    UniqueIds(pitfalls) && IdsBelow(pitfalls, nextId) &&
    (forall i :: 0 <= i < |powerups| ==> powerups[i].id in despawnsPending) &&
    (forall i :: 0 <= i < |pitfalls| && pitfalls[i].kind == OilSlick ==> pitfalls[i].id in evaporationsPending)
  }

  /** The cars' part of the scene invariant: the player's car and every AI
      car keep their own invariants and have no more hp than their maximum,
      the AI cars are distinct, and there are `total` of them, at most the
      opponent count. */
  ghost predicate CarsSound(p: Player, cars: seq<AiCar>, total: nat)
    reads p`hp, p`shieldHits, p`invulnerable, p`alive, p`active, p`speedMultiplier, p`damageMultiplier,
          p`pendingSpeedExpiries, p`pendingRamExpiries
    reads cars`hp, cars`shieldHits, cars`invulnerable, cars`alive, cars`active, cars`speedMultiplier,
          cars`damageMultiplier, cars`pendingSpeedExpiries, cars`pendingRamExpiries
  {
    p.Valid() && p.hp <= p.maxHp &&
    |cars| == total <= OPPONENT_COUNT &&
    (forall i, j :: 0 <= i < j < |cars| ==> cars[i] != cars[j]) &&
    forall i :: 0 <= i < |cars| ==> cars[i].Valid() && cars[i].hp <= cars[i].maxHp
  }

  /** `count` is the number of AI cars alive, and `alive` holds exactly their
      indices. */
  ghost predicate AliveCounted(cars: seq<AiCar>, count: int, alive: set<nat>)
    reads cars`alive
  {
    count == |alive| &&
    (forall i :: i in alive ==> i < |cars|) &&
    (forall i :: 0 <= i < |cars| ==> (i in alive <==> cars[i].alive))
  }

  /** The AI car's body after the effect of a pitfall of this kind: an oil
      slick sets the spin and the lowered drag and schedules the restore; a
      pit hole (after its hit) puts the car, standing still, at the safe point;
      a spike strip (after its hit) keeps 0.3 of the velocity. Of the body,
      only the position and the velocity are stated after a damaging
      pitfall. */
  twostate predicate AiCarTripped(car: AiCar, kind: PitfallKind, spin: real, safe: Point)
    reads car`body, car`pendingOilRestores, car`tint, car`pendingFlashes,
          car`hp, car`shieldHits, car`invulnerable, car`alive
  {
    var b0 := old(car.body);
    (kind == OilSlick ==>
      car.body == Slipping(b0, spin, OilSlickDrag(AI_DRAG)) && car.pendingOilRestores == old(car.pendingOilRestores) + 1 &&
      car.tint == old(car.tint) && car.pendingFlashes == old(car.pendingFlashes)) &&
    (kind != OilSlick ==> car.Marked(old(car.Health()))) &&
    (kind == PitHole ==>
      Motion(car.body) == (safe.x, safe.y, 0.0, 0.0) && car.pendingOilRestores == old(car.pendingOilRestores)) &&
    (kind == SpikeStrip ==>
      Motion(car.body) == Motion(Slowed(b0)) && car.pendingOilRestores == old(car.pendingOilRestores))
  }

  /** One AI car over a frame of the scene's update: when it is active and
      alive it re-targets once the switch time has strictly passed (chasing
      or wandering by its draws) and turns and accelerates toward the target;
      its body is then halted when the game ended in defeat this frame. */
  twostate predicate AiCarSteered(car: AiCar, halt: bool, time: real, playerAlive: bool, playerX: real, playerY: real,
                                  draws: seq<real>, diff: real)
    requires |draws| >= 4 && AllDraws(draws)
    reads car`body, car`target, car`active, car`alive, car`speedMultiplier
  {
    var steers := car.active && car.alive;
    var steered := if steers then AiSteer(old(car.body), car.speedMultiplier, diff) else old(car.body);
    car.body == (if halt then Halted(steered) else steered) &&
    car.target == if steers && time > old(car.target.nextTargetTime)
                    then ChooseTarget(time, car.aggression, playerAlive, playerX, playerY, draws)
                    else old(car.target)
  }

  /** A power-up spawned under the next id, with its despawn scheduled, keeps
      the field valid. */
  lemma PowerupAddedKeepsField(powerups: seq<Placed<PowerupKind>>, pitfalls: seq<Placed<PitfallKind>>, nextId: nat,
                               despawns: set<nat>, evaporations: set<nat>, item: Placed<PowerupKind>)
    requires FieldValid(powerups, pitfalls, nextId, despawns, evaporations)
    requires |powerups| < POWERUP_MAX_COUNT && item.id == nextId
    ensures FieldValid(powerups + [item], pitfalls, nextId + 1, despawns + {nextId}, evaporations)
  {
    var xs := powerups + [item];
    assert forall i :: 0 <= i < |xs| ==> xs[i] == if i < |powerups| then powerups[i] else item;
  }

  /** A pitfall spawned under the next id, an oil slick with its evaporation
      scheduled, keeps the field valid. */
  lemma PitfallAddedKeepsField(powerups: seq<Placed<PowerupKind>>, pitfalls: seq<Placed<PitfallKind>>, nextId: nat,
                               despawns: set<nat>, evaporations: set<nat>, item: Placed<PitfallKind>)
    requires FieldValid(powerups, pitfalls, nextId, despawns, evaporations)
    requires |pitfalls| < PITFALL_MAX_COUNT && item.id == nextId
    ensures FieldValid(powerups, pitfalls + [item], nextId + 1, despawns,
                       evaporations + (if item.kind == OilSlick then {nextId} else {}))
  {
    var xs := pitfalls + [item];
    assert forall i :: 0 <= i < |xs| ==> xs[i] == if i < |pitfalls| then pitfalls[i] else item;
  }

  /** Taking a power-up off the field keeps it valid. */
  lemma PowerupRemovedKeepsField(powerups: seq<Placed<PowerupKind>>, pitfalls: seq<Placed<PitfallKind>>, nextId: nat,
                                 despawns: set<nat>, evaporations: set<nat>, i: nat)
    requires FieldValid(powerups, pitfalls, nextId, despawns, evaporations) && i < |powerups|
    ensures FieldValid(Removed(powerups, i), pitfalls, nextId, despawns, evaporations)
    ensures Find(Removed(powerups, i), powerups[i].id) < 0
  {
    RemovedKeepsIds(powerups, i, nextId);
  }

  /** Taking a pitfall off the field keeps it valid. */
  lemma PitfallRemovedKeepsField(powerups: seq<Placed<PowerupKind>>, pitfalls: seq<Placed<PitfallKind>>, nextId: nat,
                                 despawns: set<nat>, evaporations: set<nat>, i: nat)
    requires FieldValid(powerups, pitfalls, nextId, despawns, evaporations) && i < |pitfalls|
    ensures FieldValid(powerups, Removed(pitfalls, i), nextId, despawns, evaporations)
    ensures Find(Removed(pitfalls, i), pitfalls[i].id) < 0
  {
    RemovedKeepsIds(pitfalls, i, nextId);
    var r := Removed(pitfalls, i);
    forall j | 0 <= j < |r| && r[j].kind == OilSlick ensures r[j].id in evaporations {
      assert r[j] == pitfalls[if j < i then j else j + 1];
    }
  }

  /** A despawn callback that has run for an id no longer on the field leaves
      the field valid. */
  lemma DespawnDoneKeepsField(powerups: seq<Placed<PowerupKind>>, pitfalls: seq<Placed<PitfallKind>>, nextId: nat,
                              despawns: set<nat>, evaporations: set<nat>, id: nat)
    requires FieldValid(powerups, pitfalls, nextId, despawns, evaporations) && Find(powerups, id) < 0
    ensures FieldValid(powerups, pitfalls, nextId, despawns - {id}, evaporations)
  {
  }

  /** An evaporation callback that has run for an id no longer on the field
      leaves the field valid. */
  lemma EvaporationDoneKeepsField(powerups: seq<Placed<PowerupKind>>, pitfalls: seq<Placed<PitfallKind>>, nextId: nat,
                                  despawns: set<nat>, evaporations: set<nat>, id: nat)
    requires FieldValid(powerups, pitfalls, nextId, despawns, evaporations) && Find(pitfalls, id) < 0
    ensures FieldValid(powerups, pitfalls, nextId, despawns, evaporations - {id})
  {
  }

  /** The indices below n. */
  function Indices(n: nat): (r: set<nat>)
    ensures |r| == n
    ensures forall i: int :: i in r <==> 0 <= i < n
    decreases n
  {
    if n == 0 then {}
    else
      var below := Indices(n - 1);
      assert n - 1 !in below;
      below + {n - 1}
  }

  /** The live count lies between 0 and the number of AI cars. */
  lemma AliveWithin(cars: seq<AiCar>, count: int, alive: set<nat>)
    requires AliveCounted(cars, count, alive)
    ensures 0 <= count <= |cars|
  {
    var all := Indices(|cars|);
    assert alive <= all;
    SubsetNoLarger(alive, all);
  }

  /** The live count is zero exactly when no AI car is alive, which is the
      victory test of onAiDestroyed. */
  lemma NoneAliveIffZero(cars: seq<AiCar>, count: int, alive: set<nat>)
    requires AliveCounted(cars, count, alive)
    ensures count == 0 <==> forall i :: 0 <= i < |cars| ==> !cars[i].alive
  {
    if count != 0 {
      var x :| x in alive;
      assert cars[x].alive;
    }
  }

  /** A subset is no larger than its superset. */
  lemma {:induction false} SubsetNoLarger(a: set<nat>, b: set<nat>)
    requires a <= b
    ensures |a| <= |b|
    decreases |b|
  {
    if a != {} {
      var x :| x in a;
      SubsetNoLarger(a - {x}, b - {x});
    }
  }
}
