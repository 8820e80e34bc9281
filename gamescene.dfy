/** The main gameplay scene: the countdown, the per-frame update, the
    collision, pickup and pitfall handlers, the two spawners, the destroyed
    handler, the end of the game and the result it reports.

    Phaser's timers become methods: each delayed callback is a method whose
    precondition says it is scheduled (a pending id set, a pending flag or a
    pending count), and each repeating timer's paused flag is a field. Random
    draws and the scene clock are parameters. */
module Arena {
  import opened Config
  import opened Combat
  import opened PlayerCar
  import opened Opponent
  import opened SceneRules

  datatype Option<T> = None | Some(value: T)

  /** The data handed to the game-over scene. */
  datatype Report = Report(victory: bool, score: int, aiDestroyed: int, totalOpponents: int,
                           playerMonsterName: string, selectedMonster: Monster)

  // ---------------------------------------------------------------------
  // Spawning the field

  const SPAWN_POINTS: seq<Point> := [
    Point(90.0, 90.0), Point(400.0, 90.0), Point(710.0, 90.0), Point(90.0, 300.0),
    Point(710.0, 300.0), Point(90.0, 510.0), Point(400.0, 510.0), Point(710.0, 510.0)
  ]

  const PLAYER_SPAWN: Point := Point(400.0, 480.0)

  /** The opponents: the roster without the selected monster's id, in roster
      order, cut to the opponent count. */
  function Opponents(selected: Monster): (r: seq<Monster>)
    ensures |r| <= OPPONENT_COUNT
  {
    var others := WithoutId(ROSTER, selected.id);
    if |others| <= OPPONENT_COUNT then others else others[..OPPONENT_COUNT]
  }

  /** Every opponent is a roster entry of another id than the selected
      monster's, and there are four of them whenever the roster has four such
      entries. */
  lemma OpponentsAreOthers(selected: Monster)
    ensures forall m :: m in Opponents(selected) ==> m in ROSTER && m.id != selected.id
    ensures |Opponents(selected)| == if |WithoutId(ROSTER, selected.id)| <= OPPONENT_COUNT
                                     then |WithoutId(ROSTER, selected.id)| else OPPONENT_COUNT
  {
    var others := WithoutId(ROSTER, selected.id);
    WithoutIdMembers(ROSTER, selected.id);
    assert forall m :: m in others[..if |others| <= OPPONENT_COUNT then |others| else OPPONENT_COUNT] ==> m in others;
  }

  /** A roster pick always faces four opponents, none of them itself, and each
      of them has a spawn point of its own. */
  lemma OpponentsOfRosterPick(k: nat)
    requires k < |ROSTER|
    ensures |Opponents(ROSTER[k])| == OPPONENT_COUNT <= |SPAWN_POINTS|
    ensures ROSTER[k] !in Opponents(ROSTER[k])
  {
    RosterLeavesEnoughOpponents(k);
    OpponentsAreOthers(ROSTER[k]);
  }

  /** The player's car as spawnPlayer leaves it: sound and unhurt at its spawn
      point, named after the selected monster, with no score yet. */
  ghost predicate PlayerAtStart(p: Player, sel: Monster)
    reads p
  {
    p.Valid() && p.hp <= p.maxHp && p.monsterName == sel.name && p.textureKey == "player" &&
    p.Health() == Vitals(PLAYER_HP, 0, false, true) && p.ScoreCard() == ScoreState(0, 0, 0.0) &&
    p.body == RestingBody(PLAYER_SPAWN.x, PLAYER_SPAWN.y, PLAYER_DRAG, PLAYER_MAX_SPEED)
  }

  /** The AI cars as spawnAiCars leaves them: distinct, one per opponent, each
      sound and unhurt at the spawn point of its index, with its drawn
      aggression. */
  ghost predicate AiCarsAtStart(cars: seq<AiCar>, opponents: seq<Monster>, aggressionDraws: seq<real>)
    reads set i | 0 <= i < |cars| :: cars[i]
  {
    |cars| == |opponents| <= |aggressionDraws| && |cars| <= |SPAWN_POINTS| && AllDraws(aggressionDraws) &&
    (forall j, k :: 0 <= j < k < |cars| ==> cars[j] != cars[k]) &&
    forall j :: 0 <= j < |cars| ==>
      cars[j].Valid() && cars[j].hp <= cars[j].maxHp &&
      cars[j].monsterName == opponents[j].name && cars[j].textureKey == opponents[j].textureKey &&
      cars[j].aggression == Aggression(aggressionDraws[j]) &&
      cars[j].Health() == Vitals(AI_HP, 0, false, true) &&
      cars[j].body == RestingBody(SPAWN_POINTS[j].x, SPAWN_POINTS[j].y, AI_DRAG, AI_MAX_SPEED)
  }

  /** spawnPlayer(): the player's car at its spawn point, named after the
      selected monster. */
  method SpawnPlayer(sel: Monster) returns (p: Player)
    ensures fresh(p) && PlayerAtStart(p, sel)
  {
    p := new Player(PLAYER_SPAWN.x, PLAYER_SPAWN.y, sel.textureKey, sel.stats);
    p.monsterName := sel.name;
  }

  /** spawnAiCars(): one AI car per opponent, at the spawn point of its index. */
  method SpawnAiCars(opponents: seq<Monster>, aggressionDraws: seq<real>) returns (cars: seq<AiCar>)
    requires |opponents| <= OPPONENT_COUNT <= |aggressionDraws| && AllDraws(aggressionDraws)
    ensures (forall j :: 0 <= j < |cars| ==> fresh(cars[j])) && AiCarsAtStart(cars, opponents, aggressionDraws)
  {
    cars := [];
    var i := 0;
    while i < |opponents|
      invariant 0 <= i <= |opponents| && |cars| == i
      invariant forall j, k :: 0 <= j < k < i ==> cars[j] != cars[k]
      invariant forall j :: 0 <= j < i ==>
        fresh(cars[j]) && cars[j].Valid() && cars[j].hp <= cars[j].maxHp &&
        cars[j].monsterName == opponents[j].name && cars[j].textureKey == opponents[j].textureKey &&
        cars[j].aggression == Aggression(aggressionDraws[j]) &&
        cars[j].Health() == Vitals(AI_HP, 0, false, true) &&
        cars[j].body == RestingBody(SPAWN_POINTS[j].x, SPAWN_POINTS[j].y, AI_DRAG, AI_MAX_SPEED)
    {
      var spawn := SPAWN_POINTS[i];
      var ai := new AiCar(spawn.x, spawn.y, opponents[i].textureKey, opponents[i].name, aggressionDraws[i]);
      cars := cars + [ai];
      i := i + 1;
    }
  }

  /** Freeze (`on` false) or unfreeze every AI car's body: `body.enable = on`
      on each car of the group. */
  method SetEnabled(cars: seq<AiCar>, on: bool)
    requires forall i, j :: 0 <= i < j < |cars| ==> cars[i] != cars[j]
    modifies cars`body
    ensures forall i :: 0 <= i < |cars| ==> cars[i].body == WithEnabled(old(cars[i].body), on)
  {
    var k := 0;
    while k < |cars|
      invariant 0 <= k <= |cars|
      invariant forall j :: 0 <= j < k ==> cars[j].body == WithEnabled(old(cars[j].body), on)
      invariant forall j :: k <= j < |cars| ==> cars[j].body == old(cars[j].body)
      modifies cars`body
    {
      cars[k].body := WithEnabled(cars[k].body, on);
      k := k + 1;
    }
  }

  class GameScene {
    const selectedMonster: Monster
    const totalAiCount: nat
    const player: Player
    const aiCars: seq<AiCar>
    var gameState: GameState
    var aiCarsAlive: int
    var powerups: seq<Placed<PowerupKind>>
    var pitfalls: seq<Placed<PitfallKind>>
    /** The identity the next spawned sprite gets. */
    var nextId: nat
    /** Power-ups whose 15 s despawn callback has not run. */
    var despawnsPending: set<nat>
    /** Oil slicks whose 20 s evaporation callback has not run. */
    var evaporationsPending: set<nat>
    var powerupTimerPaused: bool
    var pitfallTimerPaused: bool
    /** The 4 s delayed unpause of the pitfall timer has not run yet. */
    var pitfallUnpausePending: bool
    /** The countdown callback's `count`. */
    var countdown: int
    var outcome: Outcome
    /** endGame's 1800 ms report callback has not run yet. */
    var reportsPending: nat
    /** The indices of the AI cars that are alive. */
    ghost var aliveIndices: set<nat>

    /** The cars' part of the invariant. */
    ghost predicate CarsValid()
      reads player`hp, player`shieldHits, player`invulnerable, player`alive, player`active, player`speedMultiplier, player`damageMultiplier, player`pendingSpeedExpiries, player`pendingRamExpiries
      reads aiCars`hp, aiCars`shieldHits, aiCars`invulnerable, aiCars`alive, aiCars`active, aiCars`speedMultiplier, aiCars`damageMultiplier, aiCars`pendingSpeedExpiries, aiCars`pendingRamExpiries
    {
      CarsSound(player, aiCars, totalAiCount)
    }

    /** The flow invariant over the scene's state fields. */
    ghost predicate FlowOk()
      reads this`gameState, this`countdown, this`outcome, this`aiCarsAlive, this`reportsPending,
            this`powerupTimerPaused, this`pitfallTimerPaused, this`pitfallUnpausePending, player`alive
    {
      FlowValid(gameState, countdown, outcome, aiCarsAlive, player.alive, reportsPending,
                powerupTimerPaused, pitfallTimerPaused, pitfallUnpausePending)
    }

    /** The field invariant over the power-ups, the pitfalls and their timers. */
    ghost predicate FieldOk()
      reads this`powerups, this`pitfalls, this`nextId, this`despawnsPending, this`evaporationsPending
    {
      FieldValid(powerups, pitfalls, nextId, despawnsPending, evaporationsPending)
    }

    /** aiCarsAlive counts the AI cars that are alive. */
    ghost predicate Counted()
      reads this`aiCarsAlive, this`aliveIndices, aiCars`alive
    {
      AliveCounted(aiCars, aiCarsAlive, aliveIndices)
    }

    /** The scene's invariant, except for the count of live AI cars. */
    ghost predicate Consistent()
      reads player`hp, player`shieldHits, player`invulnerable, player`alive, player`active, player`speedMultiplier, player`damageMultiplier, player`pendingSpeedExpiries, player`pendingRamExpiries
      reads aiCars`hp, aiCars`shieldHits, aiCars`invulnerable, aiCars`alive, aiCars`active, aiCars`speedMultiplier, aiCars`damageMultiplier, aiCars`pendingSpeedExpiries, aiCars`pendingRamExpiries
      reads this`gameState, this`countdown, this`outcome, this`aiCarsAlive, this`reportsPending,
            this`powerupTimerPaused, this`pitfallTimerPaused, this`pitfallUnpausePending
      reads this`powerups, this`pitfalls, this`nextId, this`despawnsPending, this`evaporationsPending
    {
      CarsValid() && FlowOk() && FieldOk()
    }

    /** The scene's invariant: consistent, and aiCarsAlive counts the AI cars
        that are alive. */
    ghost predicate Valid()
      reads player`hp, player`shieldHits, player`invulnerable, player`alive, player`active, player`speedMultiplier, player`damageMultiplier, player`pendingSpeedExpiries, player`pendingRamExpiries
      reads aiCars`hp, aiCars`shieldHits, aiCars`invulnerable, aiCars`alive, aiCars`active, aiCars`speedMultiplier, aiCars`damageMultiplier, aiCars`pendingSpeedExpiries, aiCars`pendingRamExpiries
      reads this`gameState, this`countdown, this`outcome, this`aiCarsAlive, this`reportsPending,
            this`powerupTimerPaused, this`pitfallTimerPaused, this`pitfallUnpausePending
      reads this`powerups, this`pitfalls, this`nextId, this`despawnsPending, this`evaporationsPending
      reads this`aliveIndices
    {
      Consistent() && Counted()
    }

    /** create(data) up to its last step, for the selected monster, the player
        spawnPlayer made and the AI cars spawnAiCars made for the opponents:
        every AI car alive and counted, no power-ups or pitfalls, both spawn
        timers paused, the countdown at 3. Create below resolves the
        selection, picks the opponents, spawns the cars and adds the final
        startCountdown(). */
    constructor Setup(sel: Monster, p: Player, cars: seq<AiCar>, opponents: seq<Monster>, aggressionDraws: seq<real>)
      requires PlayerAtStart(p, sel) && AiCarsAtStart(cars, opponents, aggressionDraws)
      requires |opponents| <= OPPONENT_COUNT
      ensures Valid()
      ensures selectedMonster == sel && player == p && aiCars == cars
      ensures totalAiCount == |opponents| && aiCarsAlive == totalAiCount
      ensures gameState == Countdown && countdown == 3 && outcome == Undecided && reportsPending == 0
      ensures powerups == [] && pitfalls == [] && powerupTimerPaused && pitfallTimerPaused && !pitfallUnpausePending
    {
      selectedMonster := sel;
      player := p;
      aiCars := cars;
      totalAiCount := |cars|;
      gameState := Countdown;
      aiCarsAlive := |cars|;
      powerups := [];
      pitfalls := [];
      nextId := 0;
      despawnsPending := {};
      evaporationsPending := {};
      powerupTimerPaused := true;
      pitfallTimerPaused := true;
      pitfallUnpausePending := false;
      countdown := 3;
      outcome := Undecided;
      reportsPending := 0;
      aliveIndices := Indices(|cars|);
    }

    /** startCountdown(): freeze the player and every AI car; the count starts
        at 3. */
    method StartCountdown()
      requires Valid() && gameState == Countdown
      modifies this`countdown, player`body, aiCars`body
      ensures Valid()
      ensures countdown == 3
      ensures player.body == WithEnabled(old(player.body), false)
      ensures forall i :: 0 <= i < |aiCars| ==> aiCars[i].body == WithEnabled(old(aiCars[i].body), false)
    {
      countdown := 3;
      EnableBodies(false);
    }

    /** `body.enable = on` for the player and for every AI car. */
    method EnableBodies(on: bool)
      requires Valid()
      modifies player`body, aiCars`body
      ensures Valid()
      ensures player.body == WithEnabled(old(player.body), on)
      ensures forall i :: 0 <= i < |aiCars| ==> aiCars[i].body == WithEnabled(old(aiCars[i].body), on)
    {
      MovePlayer(WithEnabled(player.body, on));
      SetEnabled(aiCars, on);
    }

    /** One 800 ms tick of the countdown (four in all): the count drops; when it
        reaches 0 the bodies are unfrozen, the game is playing, the power-up
        timer runs and the pitfall timer's 4 s delayed start is scheduled. */
    method CountdownTick()
      requires Valid() && countdown >= 0
      modifies this`countdown, this`gameState, this`powerupTimerPaused, this`pitfallUnpausePending
      modifies player`body, aiCars`body
      ensures Valid()
      ensures countdown == old(countdown) - 1
      ensures Advances(old(gameState), gameState)
      ensures countdown == 0 ==>
        gameState == Playing && !powerupTimerPaused && pitfallUnpausePending &&
        player.body == WithEnabled(old(player.body), true) &&
        forall i :: 0 <= i < |aiCars| ==> aiCars[i].body == WithEnabled(old(aiCars[i].body), true)
      ensures countdown != 0 ==>
        gameState == old(gameState) && powerupTimerPaused == old(powerupTimerPaused) &&
        pitfallUnpausePending == old(pitfallUnpausePending) &&
        player.body == old(player.body) && forall i :: 0 <= i < |aiCars| ==> aiCars[i].body == old(aiCars[i].body)
    {
      if countdown == 1 {
        Release();
      } else {
        countdown := countdown - 1;
      }
    }

    /** The tick that takes the count from 1 to 0. */
    method Release()
      requires Valid() && countdown == 1
      modifies this`countdown, this`gameState, this`powerupTimerPaused, this`pitfallUnpausePending
      modifies player`body, aiCars`body
      ensures Valid()
      ensures countdown == 0 && gameState == Playing && !powerupTimerPaused && pitfallUnpausePending
      ensures player.body == WithEnabled(old(player.body), true)
      ensures forall i :: 0 <= i < |aiCars| ==> aiCars[i].body == WithEnabled(old(aiCars[i].body), true)
    {
      countdown, gameState, powerupTimerPaused, pitfallUnpausePending := 0, Playing, false, true;
      EnableBodies(true);
    }

    /** The 4 s delayed start of the pitfall timer. It does not look at the
        game state, so after an early end of the game the timer runs again
        (its spawns still do nothing, see SpawnPitfall). */
    method UnpausePitfallTimer()
      requires Valid() && pitfallUnpausePending
      modifies this`pitfallTimerPaused, this`pitfallUnpausePending
      ensures Valid()
      ensures !pitfallTimerPaused && !pitfallUnpausePending
    {
      pitfallTimerPaused := false;
      pitfallUnpausePending := false;
    }

    // -------------------------------------------------------------------
    // The end of the game

    /** The flow fields as one value. */
    function Flow(): FlowState
      reads this`gameState, this`outcome, this`powerupTimerPaused, this`pitfallTimerPaused, this`reportsPending,
            this`pitfallUnpausePending
    {
      FlowState(gameState, outcome, reportsPending, powerupTimerPaused, pitfallTimerPaused, pitfallUnpausePending)
    }

    /** endGame(victory) has run from a game being played: the game is over
        with that outcome, both spawn timers are paused and the report is
        scheduled. */
    twostate predicate EndedWith(victory: bool)
      reads this`gameState, this`outcome, this`powerupTimerPaused, this`pitfallTimerPaused, this`reportsPending,
            this`pitfallUnpausePending
    {
      old(gameState) == Playing && Flow() == Ended(old(Flow()), victory)
    }

    /** The game's flow is as it was. */
    twostate predicate FlowKept()
      reads this`gameState, this`outcome, this`powerupTimerPaused, this`pitfallTimerPaused, this`reportsPending,
            this`pitfallUnpausePending
    {
      Flow() == old(Flow())
    }

    /** endGame(victory): called only while playing, for a victory once no AI
        car is left and for a defeat once the player is dead. Every AI car
        loses its thrust and gets a heavy drag. */
    method EndGame(victory: bool)
      requires Valid() && gameState == Playing
      requires victory ==> aiCarsAlive == 0
      requires !victory ==> !player.alive
      modifies this`gameState, this`outcome, this`powerupTimerPaused, this`pitfallTimerPaused, this`reportsPending
      modifies aiCars`body
      ensures Valid() && EndedWith(victory)
      ensures forall i :: 0 <= i < |aiCars| ==> aiCars[i].body == Halted(old(aiCars[i].body))
    {
      DecideOutcome(victory);
      HaltAll();
    }

    /** endGame's state part: the game is over with its outcome, the spawn
        timers are paused and the report is scheduled. */
    method DecideOutcome(victory: bool)
      requires Valid() && gameState == Playing
      requires victory ==> aiCarsAlive == 0
      requires !victory ==> !player.alive
      modifies this`gameState, this`outcome, this`powerupTimerPaused, this`pitfallTimerPaused, this`reportsPending
      ensures CarsValid() && FieldOk() && Counted()
      ensures FlowOk()
      ensures EndedWith(victory)
    {
      gameState := GameOver;
      outcome := Decided(victory);
      powerupTimerPaused := true;
      pitfallTimerPaused := true;
      reportsPending := 1;
    }

    /** endGame's loop over the AI cars: no thrust, drag 600. */
    method HaltAll()
      requires Valid()
      modifies aiCars`body
      ensures Valid()
      ensures forall i :: 0 <= i < |aiCars| ==> aiCars[i].body == Halted(old(aiCars[i].body))
    {
      HaltCars(aiCars);
    }

    /** player.addScore(points) at the scene clock `now`. */
    method CreditPlayer(points: int, now: real)
      requires Valid()
      modifies player`score, player`combo, player`lastHitTime
      ensures Valid()
      ensures player.ScoreCard() == Combat.AddScore(old(player.ScoreCard()), points, now)
    {
      player.AddScore(points, now);
    }

    /** The AI car k has just died and is still counted alive. */
    ghost predicate JustDestroyed(k: nat)
      reads this`aiCarsAlive, this`aliveIndices, aiCars`alive
    {
      k < |aiCars| && k in aliveIndices && !aiCars[k].alive &&
      aiCarsAlive == |aliveIndices| &&
      (forall i :: i in aliveIndices ==> i < |aiCars|) &&
      (forall i :: 0 <= i < |aiCars| && i != k ==> (i in aliveIndices <==> aiCars[i].alive))
    }

    /** onAiDestroyed(ai), which the k-th car's die() calls: one car fewer
        alive, the destroy bonus for the player, and a victory when that was
        the last car of a game being played. */
    method NotifyAiDestroyed(k: nat, now: real)
      requires CarsValid() && FlowOk() && FieldOk() && JustDestroyed(k)
      modifies this`aiCarsAlive, this`aliveIndices, player`score, player`combo, player`lastHitTime
      modifies this`gameState, this`outcome, this`powerupTimerPaused, this`pitfallTimerPaused, this`reportsPending
      modifies aiCars`body
      ensures Valid()
      ensures aiCarsAlive == old(aiCarsAlive) - 1
      ensures player.ScoreCard() == Combat.AddScore(old(player.ScoreCard()), SCORE_DESTROY, now)
      ensures aiCarsAlive == 0 && old(gameState) == Playing ==> EndedWith(true)
      ensures !(aiCarsAlive == 0 && old(gameState) == Playing) ==> FlowKept()
      ensures BodiesFollow()
      ensures aiCars[k].Health() == old(aiCars[k].Health())
      ensures aiCars[k].tint == old(aiCars[k].tint) && aiCars[k].pendingFlashes == old(aiCars[k].pendingFlashes)
      ensures player.Health() == old(player.Health()) && player.tint == old(player.tint) &&
              player.activePowerup == old(player.activePowerup) && player.pendingFlashes == old(player.pendingFlashes)
    {
      Tally(k, now);
      WinCheck();
    }

    /** onAiDestroyed's bookkeeping: one car fewer, and the destroy bonus. */
    method Tally(k: nat, now: real)
      requires CarsValid() && FlowOk() && FieldOk() && JustDestroyed(k)
      modifies this`aiCarsAlive, this`aliveIndices, player`score, player`combo, player`lastHitTime
      ensures Valid() && aiCarsAlive == old(aiCarsAlive) - 1
      ensures player.ScoreCard() == Combat.AddScore(old(player.ScoreCard()), SCORE_DESTROY, now)
    {
      Uncount(k);
      CreditPlayer(SCORE_DESTROY, now);
    }

    /** onAiDestroyed's win check: no AI car left alive while the game is
        being played ends it in victory. */
    method WinCheck()
      requires Valid()
      modifies this`gameState, this`outcome, this`powerupTimerPaused, this`pitfallTimerPaused, this`reportsPending
      modifies aiCars`body
      ensures Valid()
      ensures aiCarsAlive == 0 && old(gameState) == Playing ==>
        EndedWith(true) && forall i :: 0 <= i < |aiCars| ==> aiCars[i].body == Halted(old(aiCars[i].body))
      ensures !(aiCarsAlive == 0 && old(gameState) == Playing) ==>
        FlowKept() && forall i :: 0 <= i < |aiCars| ==> aiCars[i].body == old(aiCars[i].body)
      ensures BodiesFollow()
    {
      if aiCarsAlive <= 0 && gameState == Playing {
        EndGame(true);
      }
    }

    /** `this.aiCarsAlive--` for the car that has just died. */
    method Uncount(k: nat)
      requires CarsValid() && FlowOk() && FieldOk() && JustDestroyed(k)
      modifies this`aiCarsAlive, this`aliveIndices
      ensures Valid() && aiCarsAlive == old(aiCarsAlive) - 1
    {
      aiCarsAlive := aiCarsAlive - 1;
      aliveIndices := aliveIndices - {k};
    }

    /** ai.takeDamage(amount) on the k-th AI car, with its die() calling the
        scene's destroyed handler. */
    method StrikeAi(k: nat, amount: real, now: real) returns (destroyed: bool)
      requires Valid() && k < |aiCars| && amount >= 0.0
      modifies {aiCars[k]}`hp, {aiCars[k]}`shieldHits, {aiCars[k]}`invulnerable, {aiCars[k]}`alive, {aiCars[k]}`active,
               {aiCars[k]}`tint, {aiCars[k]}`pendingFlashes
      modifies this`aiCarsAlive, this`aliveIndices, player`score, player`combo, player`lastHitTime
      modifies this`gameState, this`outcome, this`powerupTimerPaused, this`pitfallTimerPaused, this`reportsPending
      modifies aiCars`body
      ensures Valid()
      ensures aiCars[k].Health() == Combat.TakeDamage(old(aiCars[k].Health()), amount)
      ensures destroyed == Kills(old(aiCars[k].Health()), amount)
      ensures destroyed ==>
        aiCarsAlive == old(aiCarsAlive) - 1 &&
        player.ScoreCard() == Combat.AddScore(old(player.ScoreCard()), SCORE_DESTROY, now)
      ensures !destroyed ==> aiCarsAlive == old(aiCarsAlive) && player.ScoreCard() == old(player.ScoreCard())
      ensures Flow() == AfterDestroyed(old(Flow()), destroyed, aiCarsAlive)
      ensures BodiesFollow() && Motion(aiCars[k].body) == Motion(old(aiCars[k].body))
      ensures aiCars[k].Marked(old(aiCars[k].Health())) && PlayerSpared()
    {
      ghost var before := Fleet();
      destroyed := DamageAi(k, amount);
      if destroyed {
        ghost var damaged := Fleet();
        NotifyAiDestroyed(k, now);
        FleetFollowsTwice(before, damaged, Fleet(), false, old(gameState) == Playing && gameState != Playing);
        assert Fleet()[k].0 == aiCars[k].body && before[k].0 == old(aiCars[k].body);
      }
    }

    /** ai.takeDamage(amount) on the k-th AI car, up to its die() callback:
        when the hit destroyed the car, the scene is consistent but the car is
        still counted alive. */
    method DamageAi(k: nat, amount: real) returns (destroyed: bool)
      requires Valid() && k < |aiCars| && amount >= 0.0
      modifies {aiCars[k]}`hp, {aiCars[k]}`shieldHits, {aiCars[k]}`invulnerable, {aiCars[k]}`alive, {aiCars[k]}`active,
               {aiCars[k]}`tint, {aiCars[k]}`pendingFlashes, {aiCars[k]}`body
      ensures aiCars[k].Health() == Combat.TakeDamage(old(aiCars[k].Health()), amount)
      ensures destroyed <==> old(aiCars[k].alive) && !aiCars[k].alive
      ensures Consistent()
      ensures destroyed ==> JustDestroyed(k)
      ensures !destroyed ==> Counted()
      ensures BodiesFollow() && Motion(aiCars[k].body) == Motion(old(aiCars[k].body))
      ensures aiCars[k].Marked(old(aiCars[k].Health()))
    {
      destroyed := HurtAi(k, amount);
    }

    /** ai.takeDamage(amount) on the k-th AI car, seen from the fleet. */
    method HurtAi(k: nat, amount: real) returns (destroyed: bool)
      requires k < |aiCars| && aiCars[k].Valid()
      requires forall i, j :: 0 <= i < j < |aiCars| ==> aiCars[i] != aiCars[j]
      modifies {aiCars[k]}`hp, {aiCars[k]}`shieldHits, {aiCars[k]}`invulnerable, {aiCars[k]}`alive, {aiCars[k]}`active,
               {aiCars[k]}`tint, {aiCars[k]}`pendingFlashes, {aiCars[k]}`body
      ensures aiCars[k].Valid()
      ensures aiCars[k].Health() == Combat.TakeDamage(old(aiCars[k].Health()), amount)
      ensures destroyed <==> old(aiCars[k].alive) && !aiCars[k].alive
      ensures BodiesFollow() && Motion(aiCars[k].body) == Motion(old(aiCars[k].body))
      ensures aiCars[k].Marked(old(aiCars[k].Health()))
    {
      destroyed := aiCars[k].TakeDamage(amount);
      forall i | 0 <= i < |aiCars| && i != k
        ensures Fleet()[i] == old(Fleet())[i]
      {
        assert aiCars[i] != aiCars[k];
      }
    }

    /** player.takeDamage(amount); the player's death ends the game only at
        the next frame's lose check. */
    method StrikePlayer(amount: real)
      requires Valid() && amount >= 0.0
      modifies player`hp, player`shieldHits, player`invulnerable, player`alive, player`active, player`tint,
               player`activePowerup, player`pendingFlashes, player`body
      ensures Valid()
      ensures player.Health() == Combat.TakeDamage(old(player.Health()), amount)
      ensures player.body == AfterHit(old(player.Health()), amount, old(player.body))
      ensures player.Marked(old(player.Health()))
    {
      player.TakeDamage(amount);
    }

    /** The player's health and the marks a hit leaves on it are as they were. */
    twostate predicate PlayerSpared()
      reads player`hp, player`shieldHits, player`invulnerable, player`alive, player`tint, player`activePowerup,
            player`pendingFlashes
    {
      player.Health() == old(player.Health()) && player.tint == old(player.tint) &&
      player.activePowerup == old(player.activePowerup) && player.pendingFlashes == old(player.pendingFlashes)
    }

    /** Every AI body after a step that only damages cars: the one before,
        disabled when its car died meanwhile and halted when the game ended
        meanwhile; and no car came back to life. */
    twostate predicate BodiesFollow()
      reads this`gameState, aiCars
    {
      FleetFollows(old(Fleet()), Fleet(), old(gameState) == Playing && gameState != Playing)
    }

    /** The AI cars' bodies and liveness, in order. */
    ghost function Fleet(): seq<(Body, bool)>
      reads aiCars
    {
      seq(|aiCars|, i requires 0 <= i < |aiCars| reads aiCars => (aiCars[i].body, aiCars[i].alive))
    }

    /** Nothing of the scene, the player's car or the AI cars has changed. */
    twostate predicate Untouched()
      reads this, player, aiCars
    {
      unchanged(this, player) && unchanged(aiCars)
    }

    /** onPlayerHitAi(player, ai) for the k-th AI car at the given relative
        speed: a contact between two live cars at 60 or more is a ram (below);
        any other contact changes nothing. */
    method OnPlayerHitAi(k: nat, relSpeed: real, now: real)
      requires Valid() && k < |aiCars| && IsRelativeSpeed(relSpeed, player.body, aiCars[k].body)
      modifies {aiCars[k]}`hp, {aiCars[k]}`shieldHits, {aiCars[k]}`invulnerable, {aiCars[k]}`alive, {aiCars[k]}`active,
               {aiCars[k]}`tint, {aiCars[k]}`pendingFlashes
      modifies player`hp, player`shieldHits, player`invulnerable, player`alive, player`active, player`tint,
               player`activePowerup, player`pendingFlashes, player`body, player`score, player`combo, player`lastHitTime
      modifies this`aiCarsAlive, this`aliveIndices
      modifies this`gameState, this`outcome, this`powerupTimerPaused, this`pitfallTimerPaused, this`reportsPending
      modifies aiCars`body
      ensures Valid()
      ensures old(player.alive && aiCars[k].alive) && relSpeed >= MIN_COLLISION_SPEED ==>
          RamDone(k, relSpeed * COLLISION_DAMAGE_FACTOR * old(player.damageMultiplier),
                  relSpeed * COLLISION_DAMAGE_FACTOR * old(aiCars[k].damageMultiplier), now)
      ensures !(old(player.alive && aiCars[k].alive) && relSpeed >= MIN_COLLISION_SPEED) ==> Untouched()
    {
      if player.alive && aiCars[k].alive && relSpeed >= MIN_COLLISION_SPEED {
        PlayerImpact(k, relSpeed, now);
      }
    }

    /** The damage of onPlayerHitAi once its gate is passed: each car takes
        the base times the other's damage multiplier. */
    method PlayerImpact(k: nat, relSpeed: real, now: real)
      requires Valid() && k < |aiCars| && relSpeed >= MIN_COLLISION_SPEED
      modifies {aiCars[k]}`hp, {aiCars[k]}`shieldHits, {aiCars[k]}`invulnerable, {aiCars[k]}`alive, {aiCars[k]}`active,
               {aiCars[k]}`tint, {aiCars[k]}`pendingFlashes
      modifies player`hp, player`shieldHits, player`invulnerable, player`alive, player`active, player`tint,
               player`activePowerup, player`pendingFlashes, player`body, player`score, player`combo, player`lastHitTime
      modifies this`aiCarsAlive, this`aliveIndices
      modifies this`gameState, this`outcome, this`powerupTimerPaused, this`pitfallTimerPaused, this`reportsPending
      modifies aiCars`body
      ensures Valid()
      ensures RamDone(k, relSpeed * COLLISION_DAMAGE_FACTOR * old(player.damageMultiplier),
                      relSpeed * COLLISION_DAMAGE_FACTOR * old(aiCars[k].damageMultiplier), now)
    {
      Ram(k, relSpeed * COLLISION_DAMAGE_FACTOR * player.damageMultiplier,
          relSpeed * COLLISION_DAMAGE_FACTOR * aiCars[k].damageMultiplier, now);
    }

    /** The k-th AI car took `amountAi` as a hit with its destroyed handler
        (one car fewer, the bonus, a victory on the last car of a game being
        played), then the player took `amountPlayer` and was credited a hit. */
    twostate predicate RamDone(k: nat, amountAi: real, amountPlayer: real, now: real)
      reads this, player, aiCars
      requires k < |aiCars|
    {
      var s := HitOutcome(old(StandingOf(k)), amountAi, now);
      aiCars[k].Health() == s.car && aiCarsAlive == s.aliveCount && Flow() == s.flow &&
      player.ScoreCard() == Combat.AddScore(s.score, SCORE_HIT, now) &&
      player.Health() == Combat.TakeDamage(old(player.Health()), amountPlayer) &&
      player.body == AfterHit(old(player.Health()), amountPlayer, old(player.body)) &&
      aiCars[k].Marked(old(aiCars[k].Health())) && player.Marked(old(player.Health())) &&
      BodiesFollow()
    }

    /** The damage step of onPlayerHitAi: the k-th AI car takes `amountAi`,
        then the player `amountPlayer`, then the player is credited a hit. */
    method Ram(k: nat, amountAi: real, amountPlayer: real, now: real)
      requires Valid() && k < |aiCars| && amountAi >= 0.0 && amountPlayer >= 0.0
      modifies {aiCars[k]}`hp, {aiCars[k]}`shieldHits, {aiCars[k]}`invulnerable, {aiCars[k]}`alive, {aiCars[k]}`active,
               {aiCars[k]}`tint, {aiCars[k]}`pendingFlashes
      modifies player`hp, player`shieldHits, player`invulnerable, player`alive, player`active, player`tint,
               player`activePowerup, player`pendingFlashes, player`body, player`score, player`combo, player`lastHitTime
      modifies this`aiCarsAlive, this`aliveIndices
      modifies this`gameState, this`outcome, this`powerupTimerPaused, this`pitfallTimerPaused, this`reportsPending
      modifies aiCars`body
      ensures Valid() && RamDone(k, amountAi, amountPlayer, now)
    {
      HitAi(k, amountAi, now);
      StrikeBack(amountPlayer, now);
    }

    /** The player's half of onPlayerHitAi: it takes `amount`, then is
        credited a hit. */
    method StrikeBack(amount: real, now: real)
      requires Valid() && amount >= 0.0
      modifies player`hp, player`shieldHits, player`invulnerable, player`alive, player`active, player`tint,
               player`activePowerup, player`pendingFlashes, player`body, player`score, player`combo, player`lastHitTime
      ensures Valid()
      ensures player.Health() == Combat.TakeDamage(old(player.Health()), amount)
      ensures player.body == AfterHit(old(player.Health()), amount, old(player.body))
      ensures player.ScoreCard() == Combat.AddScore(old(player.ScoreCard()), SCORE_HIT, now)
      ensures player.Marked(old(player.Health()))
    {
      StrikePlayer(amount);
      CreditPlayer(SCORE_HIT, now);
    }

    /** onAiHitAi(a, b) for the a-th and b-th AI cars: the same gate as the
        player's contact; a takes the base times b's damage multiplier, then b
        the base times a's. No hit is credited; a destruction still credits
        the player its bonus. */
    method OnAiHitAi(a: nat, b: nat, relSpeed: real, now: real)
      requires Valid() && a < |aiCars| && b < |aiCars| && a != b
      requires IsRelativeSpeed(relSpeed, aiCars[a].body, aiCars[b].body)
      modifies {aiCars[a], aiCars[b]}`hp, {aiCars[a], aiCars[b]}`shieldHits, {aiCars[a], aiCars[b]}`invulnerable,
               {aiCars[a], aiCars[b]}`alive, {aiCars[a], aiCars[b]}`active, {aiCars[a], aiCars[b]}`tint,
               {aiCars[a], aiCars[b]}`pendingFlashes
      modifies this`aiCarsAlive, this`aliveIndices, player`score, player`combo, player`lastHitTime
      modifies this`gameState, this`outcome, this`powerupTimerPaused, this`pitfallTimerPaused, this`reportsPending
      modifies aiCars`body
      ensures Valid()
      ensures old(aiCars[a].alive && aiCars[b].alive) && relSpeed >= MIN_COLLISION_SPEED ==>
          ClashDone(a, b, relSpeed * COLLISION_DAMAGE_FACTOR * old(aiCars[b].damageMultiplier),
                    relSpeed * COLLISION_DAMAGE_FACTOR * old(aiCars[a].damageMultiplier), now)
      ensures !(old(aiCars[a].alive && aiCars[b].alive) && relSpeed >= MIN_COLLISION_SPEED) ==> Untouched()
    {
      if aiCars[a].alive && aiCars[b].alive && relSpeed >= MIN_COLLISION_SPEED {
        AiImpact(a, b, relSpeed, now);
      }
    }

    /** The damage of onAiHitAi once its gate is passed: a takes the base
        times b's damage multiplier, then b the base times a's. */
    method AiImpact(a: nat, b: nat, relSpeed: real, now: real)
      requires Valid() && a < |aiCars| && b < |aiCars| && a != b && relSpeed >= MIN_COLLISION_SPEED
      modifies {aiCars[a], aiCars[b]}`hp, {aiCars[a], aiCars[b]}`shieldHits, {aiCars[a], aiCars[b]}`invulnerable,
               {aiCars[a], aiCars[b]}`alive, {aiCars[a], aiCars[b]}`active, {aiCars[a], aiCars[b]}`tint,
               {aiCars[a], aiCars[b]}`pendingFlashes
      modifies this`aiCarsAlive, this`aliveIndices, player`score, player`combo, player`lastHitTime
      modifies this`gameState, this`outcome, this`powerupTimerPaused, this`pitfallTimerPaused, this`reportsPending
      modifies aiCars`body
      ensures Valid()
      ensures ClashDone(a, b, relSpeed * COLLISION_DAMAGE_FACTOR * old(aiCars[b].damageMultiplier),
                        relSpeed * COLLISION_DAMAGE_FACTOR * old(aiCars[a].damageMultiplier), now)
    {
      Clash(a, b, relSpeed * COLLISION_DAMAGE_FACTOR * aiCars[b].damageMultiplier,
            relSpeed * COLLISION_DAMAGE_FACTOR * aiCars[a].damageMultiplier, now);
    }

    /** The a-th car took `amountA` as a hit with its destroyed handler, then
        the b-th car `amountB` from the standing the first hit left: each hit
        decides its car's health, the count, the destroy bonus and a victory
        on the last car of a game being played. */
    twostate predicate ClashDone(a: nat, b: nat, amountA: real, amountB: real, now: real)
      reads this, player, aiCars
      requires a < |aiCars| && b < |aiCars|
    {
      var first := HitOutcome(old(StandingOf(a)), amountA, now);
      var second := HitOutcome(Standing(old(aiCars[b].Health()), first.aliveCount, first.score, first.flow), amountB, now);
      aiCars[a].Health() == first.car && StandingOf(b) == second &&
      aiCars[a].Marked(old(aiCars[a].Health())) && aiCars[b].Marked(old(aiCars[b].Health())) &&
      BodiesFollow()
    }

    /** The damage step of onAiHitAi: the a-th car takes `amountA`, then the
        b-th `amountB`, each hit with its destroyed handler. */
    method Clash(a: nat, b: nat, amountA: real, amountB: real, now: real)
      requires Valid() && a < |aiCars| && b < |aiCars| && a != b && amountA >= 0.0 && amountB >= 0.0
      modifies {aiCars[a], aiCars[b]}`hp, {aiCars[a], aiCars[b]}`shieldHits, {aiCars[a], aiCars[b]}`invulnerable,
               {aiCars[a], aiCars[b]}`alive, {aiCars[a], aiCars[b]}`active, {aiCars[a], aiCars[b]}`tint,
               {aiCars[a], aiCars[b]}`pendingFlashes
      modifies this`aiCarsAlive, this`aliveIndices, player`score, player`combo, player`lastHitTime
      modifies this`gameState, this`outcome, this`powerupTimerPaused, this`pitfallTimerPaused, this`reportsPending
      modifies aiCars`body
      ensures Valid() && ClashDone(a, b, amountA, amountB, now)
    {
      ghost var before, tint, flashes := aiCars[b].Health(), aiCars[b].tint, aiCars[b].pendingFlashes;
      HitAi(a, amountA, now);
      assert aiCars[b].Health() == before && aiCars[b].tint == tint && aiCars[b].pendingFlashes == flashes;
      label mid:
      HitOther(a, b, amountB, now);
      FleetFollowsTwice(old(Fleet()), old@mid(Fleet()), Fleet(), old(gameState) == Playing && old@mid(gameState) != Playing,
                        old@mid(gameState) == Playing && gameState != Playing);
    }

    /** The second hit of a contact of two AI cars: the b-th takes it as a
        hit on its standing, and the a-th car's health is left as it is. */
    method HitOther(a: nat, b: nat, amount: real, now: real)
      requires Valid() && a < |aiCars| && b < |aiCars| && a != b && amount >= 0.0
      modifies {aiCars[b]}`hp, {aiCars[b]}`shieldHits, {aiCars[b]}`invulnerable, {aiCars[b]}`alive, {aiCars[b]}`active,
               {aiCars[b]}`tint, {aiCars[b]}`pendingFlashes
      modifies this`aiCarsAlive, this`aliveIndices, player`score, player`combo, player`lastHitTime
      modifies this`gameState, this`outcome, this`powerupTimerPaused, this`pitfallTimerPaused, this`reportsPending
      modifies aiCars`body
      ensures Valid() && StandingOf(b) == HitOutcome(old(StandingOf(b)), amount, now)
      ensures aiCars[a].Health() == old(aiCars[a].Health()) && BodiesFollow()
      ensures aiCars[b].Marked(old(aiCars[b].Health()))
      ensures aiCars[a].tint == old(aiCars[a].tint) && aiCars[a].pendingFlashes == old(aiCars[a].pendingFlashes)
    {
      HitAi(b, amount, now);
    }

    // -------------------------------------------------------------------
    // Power-ups

    /** The player's multipliers, shield, tint, HUD label and scheduled
        expiries after applyPowerup(kind). */
    twostate predicate PlayerPoweredUp(kind: PowerupKind)
      reads player
    {
      player.speedMultiplier == (if kind == Speed then SPEED_MULTIPLIER else 1.0) &&
      player.damageMultiplier == (if kind == MegaRam then MEGA_RAM_MULTIPLIER else 1.0) &&
      player.shieldHits == (if kind == Shield then SHIELD_HITS else old(player.shieldHits)) &&
      player.tint == PowerupTint(kind) && player.activePowerup == PowerupLabel(kind) &&
      player.pendingSpeedExpiries == old(player.pendingSpeedExpiries) + (if kind == Speed then 1 else 0) &&
      player.pendingRamExpiries == old(player.pendingRamExpiries) + (if kind == MegaRam then 1 else 0)
    }

    /** onCollectPowerup(player, pu) for the power-up with the given id: a live
        player touching a power-up still on the field gets its effect and 50
        points, and the power-up leaves the field. */
    method OnCollectPowerup(id: nat, now: real)
      requires Valid()
      modifies player`speedMultiplier, player`damageMultiplier, player`shieldHits, player`tint, player`activePowerup,
               player`pendingSpeedExpiries, player`pendingRamExpiries
      modifies player`score, player`combo, player`lastHitTime, this`powerups
      ensures Valid()
      ensures old(player.alive) && Find(old(powerups), id) >= 0 ==> PlayerCollected(Find(old(powerups), id), now)
      ensures !(old(player.alive) && Find(old(powerups), id) >= 0) ==> unchanged(this, player)
    {
      var i := Find(powerups, id);
      if player.alive && i >= 0 {
        CollectPowerup(i, now);
      }
    }

    /** The i-th power-up was taken by the player: it left the field, the
        player got its effect and was credited 50 points. */
    twostate predicate PlayerCollected(i: nat, now: real)
      reads this, player
    {
      i < |old(powerups)| && powerups == Removed(old(powerups), i) &&
      PlayerPoweredUp(old(powerups[i].kind)) &&
      player.ScoreCard() == Combat.AddScore(old(player.ScoreCard()), SCORE_POWERUP, now)
    }

    /** onCollectPowerup past its guard, for the i-th power-up. */
    method CollectPowerup(i: nat, now: real)
      requires Valid() && i < |powerups|
      modifies player`speedMultiplier, player`damageMultiplier, player`shieldHits, player`tint, player`activePowerup,
               player`pendingSpeedExpiries, player`pendingRamExpiries
      modifies player`score, player`combo, player`lastHitTime, this`powerups
      ensures Valid() && PlayerCollected(i, now)
    {
      EmpowerPlayer(powerups[i].kind);
      CreditPlayer(SCORE_POWERUP, now);
      TakePowerup(i);
    }

    /** player.applyPowerup(kind). */
    method EmpowerPlayer(kind: PowerupKind)
      requires Valid()
      modifies player`speedMultiplier, player`damageMultiplier, player`shieldHits, player`tint, player`activePowerup,
               player`pendingSpeedExpiries, player`pendingRamExpiries
      ensures Valid() && PlayerPoweredUp(kind)
    {
      player.ApplyPowerup(kind);
    }

    /** pu.destroy() for the i-th power-up on the field. */
    method TakePowerup(i: nat)
      requires Valid() && i < |powerups|
      modifies this`powerups
      ensures Valid() && powerups == Removed(old(powerups), i)
      ensures Find(powerups, old(powerups[i].id)) < 0
    {
      PowerupRemovedKeepsField(powerups, pitfalls, nextId, despawnsPending, evaporationsPending, i);
      powerups := Removed(powerups, i);
    }

    /** onAiCollectPowerup(ai, pu) for the k-th AI car: a live car touching a
        power-up still on the field gets its effect (no points), and the
        power-up leaves the field. */
    method OnAiCollectPowerup(k: nat, id: nat)
      requires Valid() && k < |aiCars|
      modifies {aiCars[k]}`speedMultiplier, {aiCars[k]}`damageMultiplier, {aiCars[k]}`shieldHits, {aiCars[k]}`tint,
               {aiCars[k]}`pendingSpeedExpiries, {aiCars[k]}`pendingRamExpiries
      modifies this`powerups
      ensures Valid()
      ensures old(aiCars[k].alive) && Find(old(powerups), id) >= 0 ==>
        powerups == Removed(old(powerups), Find(old(powerups), id)) &&
        AiPoweredUp(k, old(powerups)[Find(old(powerups), id)].kind)
      ensures !(old(aiCars[k].alive) && Find(old(powerups), id) >= 0) ==> unchanged(this, aiCars[k])
    {
      var i := Find(powerups, id);
      if aiCars[k].alive && i >= 0 {
        ApplyPowerupToAi(k, powerups[i].kind);
        TakePowerup(i);
      }
    }

    /** The k-th AI car after applyPowerupToAi(ai, kind): only the picked
        multiplier or the shield is set, the other multiplier keeps its value,
        the car takes the power-up's tint, and a timed one has its expiry
        scheduled. */
    twostate predicate AiPoweredUp(k: nat, kind: PowerupKind)
      reads aiCars
      requires k < |aiCars|
    {
      var ai := aiCars[k];
      ai.speedMultiplier == (if kind == Speed then SPEED_MULTIPLIER else old(ai.speedMultiplier)) &&
      ai.damageMultiplier == (if kind == MegaRam then MEGA_RAM_MULTIPLIER else old(ai.damageMultiplier)) &&
      ai.shieldHits == (if kind == Shield then SHIELD_HITS else old(ai.shieldHits)) &&
      ai.tint == PowerupTint(kind) &&
      ai.pendingSpeedExpiries == old(ai.pendingSpeedExpiries) + (if kind == Speed then 1 else 0) &&
      ai.pendingRamExpiries == old(ai.pendingRamExpiries) + (if kind == MegaRam then 1 else 0)
    }

    /** applyPowerupToAi(ai, type, cfg) for the k-th AI car. */
    method ApplyPowerupToAi(k: nat, kind: PowerupKind)
      requires Valid() && k < |aiCars|
      modifies {aiCars[k]}`speedMultiplier, {aiCars[k]}`damageMultiplier, {aiCars[k]}`shieldHits, {aiCars[k]}`tint,
               {aiCars[k]}`pendingSpeedExpiries, {aiCars[k]}`pendingRamExpiries
      ensures Consistent()
      ensures Counted()
      ensures AiPoweredUp(k, kind)
    {
      aiCars[k].Empower(kind);
    }

    // -------------------------------------------------------------------
    // Pitfalls

    /** The pitfall with this id can trigger for a car alive with these
        stamps: it is still on the field and the car has no recent stamp for
        it. */
    predicate Triggers(alive: bool, stamps: map<PitKey, real>, id: nat, now: real)
      reads this`pitfalls
    {
      var i := Find(pitfalls, id);
      alive && i >= 0 && !Debounced(stamps, PitKeyOf(pitfalls[i].pos.x, pitfalls[i].pos.y), now)
    }

    /** The stamps after a trigger of the pitfall with this id. */
    ghost function Stamped(stamps: map<PitKey, real>, id: nat, now: real): map<PitKey, real>
      reads this`pitfalls
      requires Find(pitfalls, id) >= 0
    {
      var p := pitfalls[Find(pitfalls, id)].pos;
      stamps[PitKeyOf(p.x, p.y) := now]
    }

    /** onCarHitPitfall(player, pit) for the pitfall with the given id. `spin`
        is the drawn spin of an oil slick (an integer of [-220, 220]) and
        (rx, ry) the draws of a pit hole's safe position. */
    method OnPlayerHitPitfall(id: nat, now: real, spin: int, rx: real, ry: real)
      requires Valid() && -220 <= spin <= 220 && IsDraw(rx) && IsDraw(ry)
      modifies player`hp, player`shieldHits, player`invulnerable, player`alive, player`active, player`tint,
               player`activePowerup, player`pendingFlashes, player`body, player`pendingOilRestores, player`pitStamps
      ensures Valid()
      ensures old(Triggers(player.alive, player.pitStamps, id, now)) ==>
        player.pitStamps == Stamped(old(player.pitStamps), id, now) &&
        PlayerTripped(pitfalls[Find(pitfalls, id)].kind, spin as real, SafePosition(rx, ry))
      ensures !old(Triggers(player.alive, player.pitStamps, id, now)) ==> unchanged(player)
    {
      if Triggers(player.alive, player.pitStamps, id, now) {
        var i := Find(pitfalls, id);
        StampPlayer(PitKeyOf(pitfalls[i].pos.x, pitfalls[i].pos.y), now);
        PlayerFalls(pitfalls[i].kind, spin as real, SafePosition(rx, ry));
      }
    }

    /** The player's car after the effect of a pitfall of this kind: an oil
        slick sets the spin and the lowered drag and schedules the restore; a
        pit hole hits for 30 and then puts the car, standing still, at the safe
        point; a spike strip hits for 15 and then keeps 0.3 of the velocity.
        The body it starts from is the one the hit left (disabled if the hit
        killed the car). */
    twostate predicate PlayerTripped(kind: PitfallKind, spin: real, safe: Point)
      reads player`hp, player`shieldHits, player`invulnerable, player`alive, player`body, player`pendingOilRestores,
            player`tint, player`activePowerup, player`pendingFlashes
    {
      var v := old(player.Health());
      (kind == OilSlick ==>
        player.Health() == v && player.body == Slipping(old(player.body), spin, OilSlickDrag(PLAYER_DRAG)) &&
        player.pendingOilRestores == old(player.pendingOilRestores) + 1 &&
        player.tint == old(player.tint) && player.activePowerup == old(player.activePowerup) &&
        player.pendingFlashes == old(player.pendingFlashes)) &&
      (kind != OilSlick ==> player.Marked(v)) &&
      (kind == PitHole ==>
        player.Health() == Combat.TakeDamage(v, PIT_HOLE_DAMAGE) &&
        player.body == Relocated(AfterHit(v, PIT_HOLE_DAMAGE, old(player.body)), safe.x, safe.y) &&
        player.pendingOilRestores == old(player.pendingOilRestores)) &&
      (kind == SpikeStrip ==>
        player.Health() == Combat.TakeDamage(v, SPIKE_STRIP_DAMAGE) &&
        player.body == Slowed(AfterHit(v, SPIKE_STRIP_DAMAGE, old(player.body))) &&
        player.pendingOilRestores == old(player.pendingOilRestores))
    }

    /** `car[tag] = now` on the player's car. */
    method StampPlayer(key: PitKey, now: real)
      requires Valid()
      modifies player`pitStamps
      ensures Valid() && player.pitStamps == old(player.pitStamps)[key := now]
    {
      player.pitStamps := player.pitStamps[key := now];
    }

    /** A new state of the player's body. */
    method MovePlayer(b: Body)
      requires Valid()
      modifies player`body
      ensures Valid() && player.body == b
    {
      player.body := b;
    }

    /** The switch on the pitfall's type, for the player's car. */
    method PlayerFalls(kind: PitfallKind, spin: real, safe: Point)
      requires Valid()
      modifies player`hp, player`shieldHits, player`invulnerable, player`alive, player`active, player`tint,
               player`activePowerup, player`pendingFlashes, player`body, player`pendingOilRestores
      ensures Valid() && PlayerTripped(kind, spin, safe)
    {
      match kind
      case OilSlick => player.SlipOnOil(spin);
      case PitHole => PlayerIntoHole(safe);
      case SpikeStrip => PlayerOverSpikes();
    }

    /** A pit hole under the player's car: takeDamage(30), then relocateCar. */
    method PlayerIntoHole(safe: Point)
      requires Valid()
      modifies player`hp, player`shieldHits, player`invulnerable, player`alive, player`active, player`tint,
               player`activePowerup, player`pendingFlashes, player`body
      ensures Valid()
      ensures player.Health() == Combat.TakeDamage(old(player.Health()), PIT_HOLE_DAMAGE)
      ensures player.body == Relocated(AfterHit(old(player.Health()), PIT_HOLE_DAMAGE, old(player.body)), safe.x, safe.y)
      ensures player.Marked(old(player.Health()))
    {
      StrikePlayer(PIT_HOLE_DAMAGE);
      MovePlayer(Relocated(player.body, safe.x, safe.y));
    }

    /** A spike strip under the player's car: takeDamage(15), then the
        velocity scaled by 0.3. */
    method PlayerOverSpikes()
      requires Valid()
      modifies player`hp, player`shieldHits, player`invulnerable, player`alive, player`active, player`tint,
               player`activePowerup, player`pendingFlashes, player`body
      ensures Valid()
      ensures player.Health() == Combat.TakeDamage(old(player.Health()), SPIKE_STRIP_DAMAGE)
      ensures player.body == Slowed(AfterHit(old(player.Health()), SPIKE_STRIP_DAMAGE, old(player.body)))
      ensures player.Marked(old(player.Health()))
    {
      StrikePlayer(SPIKE_STRIP_DAMAGE);
      MovePlayer(Slowed(player.body));
    }

    /** onCarHitPitfall(ai, pit) for the k-th AI car and the pitfall with the
        given id, with the same draws as the player's. A hit that destroys the
        car runs the destroyed handler at once. */
    method OnAiHitPitfall(k: nat, id: nat, now: real, spin: int, rx: real, ry: real)
      requires Valid() && k < |aiCars| && -220 <= spin <= 220 && IsDraw(rx) && IsDraw(ry)
      modifies {aiCars[k]}`hp, {aiCars[k]}`shieldHits, {aiCars[k]}`invulnerable, {aiCars[k]}`alive, {aiCars[k]}`active,
               {aiCars[k]}`tint, {aiCars[k]}`pendingFlashes, {aiCars[k]}`pendingOilRestores, {aiCars[k]}`pitStamps
      modifies this`aiCarsAlive, this`aliveIndices, player`score, player`combo, player`lastHitTime
      modifies this`gameState, this`outcome, this`powerupTimerPaused, this`pitfallTimerPaused, this`reportsPending
      modifies aiCars`body
      ensures Valid()
      ensures old(Triggers(aiCars[k].alive, aiCars[k].pitStamps, id, now)) ==>
        aiCars[k].pitStamps == Stamped(old(aiCars[k].pitStamps), id, now) &&
        AiCarTripped(aiCars[k], pitfalls[Find(pitfalls, id)].kind, spin as real, SafePosition(rx, ry)) &&
        StandingOf(k) == PitOutcome(old(StandingOf(k)), pitfalls[Find(pitfalls, id)].kind, now)
      ensures !old(Triggers(aiCars[k].alive, aiCars[k].pitStamps, id, now)) ==>
        aiCars[k].pitStamps == old(aiCars[k].pitStamps) && aiCars[k].Health() == old(aiCars[k].Health()) &&
        aiCars[k].body == old(aiCars[k].body) && aiCarsAlive == old(aiCarsAlive) &&
        player.ScoreCard() == old(player.ScoreCard()) && FlowKept()
    {
      if Triggers(aiCars[k].alive, aiCars[k].pitStamps, id, now) {
        AiTriggered(k, id, spin as real, SafePosition(rx, ry), now);
      }
    }

    /** onCarHitPitfall(ai, pit) past its guards: the car's stamp for the
        pitfall, then the effect. */
    method AiTriggered(k: nat, id: nat, spin: real, safe: Point, now: real)
      requires Valid() && k < |aiCars| && Triggers(aiCars[k].alive, aiCars[k].pitStamps, id, now)
      modifies {aiCars[k]}`hp, {aiCars[k]}`shieldHits, {aiCars[k]}`invulnerable, {aiCars[k]}`alive, {aiCars[k]}`active,
               {aiCars[k]}`tint, {aiCars[k]}`pendingFlashes, {aiCars[k]}`pendingOilRestores, {aiCars[k]}`pitStamps
      modifies this`aiCarsAlive, this`aliveIndices, player`score, player`combo, player`lastHitTime
      modifies this`gameState, this`outcome, this`powerupTimerPaused, this`pitfallTimerPaused, this`reportsPending
      modifies aiCars`body
      ensures Valid()
      ensures aiCars[k].pitStamps == Stamped(old(aiCars[k].pitStamps), id, now)
      ensures AiCarTripped(aiCars[k], pitfalls[Find(pitfalls, id)].kind, spin, safe)
      ensures StandingOf(k) == PitOutcome(old(StandingOf(k)), pitfalls[Find(pitfalls, id)].kind, now)
    {
      var i := Find(pitfalls, id);
      AiStampedFalls(k, PitKeyOf(pitfalls[i].pos.x, pitfalls[i].pos.y), pitfalls[i].kind, spin, safe, now);
    }

    /** The k-th AI car stamps the pitfall's key and suffers its effect; the
        stamp touches nothing the effect reads or writes, so it is recorded
        after the effect here, with the same outcome. */
    method AiStampedFalls(k: nat, key: PitKey, kind: PitfallKind, spin: real, safe: Point, now: real)
      requires Valid() && k < |aiCars|
      modifies {aiCars[k]}`hp, {aiCars[k]}`shieldHits, {aiCars[k]}`invulnerable, {aiCars[k]}`alive, {aiCars[k]}`active,
               {aiCars[k]}`tint, {aiCars[k]}`pendingFlashes, {aiCars[k]}`pendingOilRestores, {aiCars[k]}`pitStamps
      modifies this`aiCarsAlive, this`aliveIndices, player`score, player`combo, player`lastHitTime
      modifies this`gameState, this`outcome, this`powerupTimerPaused, this`pitfallTimerPaused, this`reportsPending
      modifies aiCars`body
      ensures Valid()
      ensures aiCars[k].pitStamps == old(aiCars[k].pitStamps)[key := now]
      ensures AiCarTripped(aiCars[k], kind, spin, safe)
      ensures StandingOf(k) == PitOutcome(old(StandingOf(k)), kind, now)
    {
      AiFalls(k, kind, spin, safe, now);
      StampAi(k, key, now);
    }

    /** What a hit on the k-th AI car can change outside its body: its health,
        the count of cars alive, the player's score and the flow. */
    function StandingOf(k: nat): Standing
      reads this`aiCarsAlive, this`gameState, this`outcome, this`powerupTimerPaused, this`pitfallTimerPaused,
            this`reportsPending, this`pitfallUnpausePending, player`score, player`combo, player`lastHitTime
      reads aiCars`hp, aiCars`shieldHits, aiCars`invulnerable, aiCars`alive
      requires k < |aiCars|
    {
      Standing(aiCars[k].Health(), aiCarsAlive, player.ScoreCard(), Flow())
    }

    /** `car[tag] = now` on the k-th AI car. */
    method StampAi(k: nat, key: PitKey, now: real)
      requires Valid() && k < |aiCars|
      modifies {aiCars[k]}`pitStamps
      ensures Valid() && aiCars[k].pitStamps == old(aiCars[k].pitStamps)[key := now]
    {
      aiCars[k].pitStamps := aiCars[k].pitStamps[key := now];
    }

    /** A new state of the k-th AI car's body. */
    method MoveAi(k: nat, b: Body)
      requires Valid() && k < |aiCars|
      modifies {aiCars[k]}`body
      ensures Valid() && aiCars[k].body == b
    {
      aiCars[k].body := b;
    }

    /** The switch on the pitfall's type, for the k-th AI car. */
    method AiFalls(k: nat, kind: PitfallKind, spin: real, safe: Point, now: real)
      requires Valid() && k < |aiCars|
      modifies {aiCars[k]}`hp, {aiCars[k]}`shieldHits, {aiCars[k]}`invulnerable, {aiCars[k]}`alive, {aiCars[k]}`active,
               {aiCars[k]}`tint, {aiCars[k]}`pendingFlashes, {aiCars[k]}`pendingOilRestores
      modifies this`aiCarsAlive, this`aliveIndices, player`score, player`combo, player`lastHitTime
      modifies this`gameState, this`outcome, this`powerupTimerPaused, this`pitfallTimerPaused, this`reportsPending
      modifies aiCars`body
      ensures Valid() && AiCarTripped(aiCars[k], kind, spin, safe)
      ensures StandingOf(k) == PitOutcome(old(StandingOf(k)), kind, now)
    {
      match kind
      case OilSlick => aiCars[k].SlipOnOil(spin);
      case PitHole => AiIntoHole(k, safe, now);
      case SpikeStrip => AiOverSpikes(k, now);
    }

    /** A damaging pitfall's takeDamage(amount) on the k-th AI car, as a hit
        on its standing; the car's position and velocity stay. */
    method HitAi(k: nat, amount: real, now: real)
      requires Valid() && k < |aiCars| && amount >= 0.0
      modifies {aiCars[k]}`hp, {aiCars[k]}`shieldHits, {aiCars[k]}`invulnerable, {aiCars[k]}`alive, {aiCars[k]}`active,
               {aiCars[k]}`tint, {aiCars[k]}`pendingFlashes
      modifies this`aiCarsAlive, this`aliveIndices, player`score, player`combo, player`lastHitTime
      modifies this`gameState, this`outcome, this`powerupTimerPaused, this`pitfallTimerPaused, this`reportsPending
      modifies aiCars`body
      ensures Valid() && StandingOf(k) == HitOutcome(old(StandingOf(k)), amount, now)
      ensures BodiesFollow() && Motion(aiCars[k].body) == Motion(old(aiCars[k].body))
      ensures aiCars[k].Marked(old(aiCars[k].Health()))
      ensures PlayerSpared()
    {
      var _ := StrikeAi(k, amount, now);
    }

    /** A pit hole under the k-th AI car: takeDamage(30), then relocateCar. */
    method AiIntoHole(k: nat, safe: Point, now: real)
      requires Valid() && k < |aiCars|
      modifies {aiCars[k]}`hp, {aiCars[k]}`shieldHits, {aiCars[k]}`invulnerable, {aiCars[k]}`alive, {aiCars[k]}`active,
               {aiCars[k]}`tint, {aiCars[k]}`pendingFlashes
      modifies this`aiCarsAlive, this`aliveIndices, player`score, player`combo, player`lastHitTime
      modifies this`gameState, this`outcome, this`powerupTimerPaused, this`pitfallTimerPaused, this`reportsPending
      modifies aiCars`body
      ensures Valid() && StandingOf(k) == HitOutcome(old(StandingOf(k)), PIT_HOLE_DAMAGE, now)
      ensures Motion(aiCars[k].body) == (safe.x, safe.y, 0.0, 0.0)
      ensures aiCars[k].Marked(old(aiCars[k].Health()))
    {
      HitAi(k, PIT_HOLE_DAMAGE, now);
      MoveAi(k, Relocated(aiCars[k].body, safe.x, safe.y));
    }

    /** A spike strip under the k-th AI car: takeDamage(15), then the velocity
        scaled by 0.3. */
    method AiOverSpikes(k: nat, now: real)
      requires Valid() && k < |aiCars|
      modifies {aiCars[k]}`hp, {aiCars[k]}`shieldHits, {aiCars[k]}`invulnerable, {aiCars[k]}`alive, {aiCars[k]}`active,
               {aiCars[k]}`tint, {aiCars[k]}`pendingFlashes
      modifies this`aiCarsAlive, this`aliveIndices, player`score, player`combo, player`lastHitTime
      modifies this`gameState, this`outcome, this`powerupTimerPaused, this`pitfallTimerPaused, this`reportsPending
      modifies aiCars`body
      ensures Valid() && StandingOf(k) == HitOutcome(old(StandingOf(k)), SPIKE_STRIP_DAMAGE, now)
      ensures Motion(aiCars[k].body) == Motion(Slowed(old(aiCars[k].body)))
      ensures aiCars[k].Marked(old(aiCars[k].Health()))
    {
      HitAi(k, SPIKE_STRIP_DAMAGE, now);
      MoveAi(k, Slowed(aiCars[k].body));
    }

    // -------------------------------------------------------------------
    // The frame loop

    /** update(time, delta): nothing happens unless the game is being played;
        then the player drives by the frame's control intent, every active,
        live AI car steers (re-targeting by its draws and turning by its angle
        to the target), and a player found dead ends the game in defeat, which
        also halts the AI cars. `speed` is the player's current speed,
        draws[i] and diffs[i] the i-th AI car's random draws and wrapped angle
        to its target. */
    method Update(time: real, intent: ControlIntent, speed: real, draws: seq<seq<real>>, diffs: seq<real>)
      requires Valid() && IsSpeed(speed, player.body)
      requires |draws| >= |aiCars| && |diffs| >= |aiCars|
      requires forall i :: 0 <= i < |aiCars| ==> |draws[i]| >= 4 && AllDraws(draws[i])
      modifies player`body, aiCars`target, aiCars`body
      modifies this`gameState, this`outcome, this`powerupTimerPaused, this`pitfallTimerPaused, this`reportsPending
      ensures Valid()
      ensures old(gameState) == Playing && !player.alive ==> EndedWith(false)
      ensures old(gameState) != Playing || player.alive ==> FlowKept()
      ensures player.body == if old(gameState) == Playing && player.alive
                             then Driven(old(player.body), PlayerDrive(intent, speed, player.speedMultiplier))
                             else old(player.body)
      ensures old(gameState) == Playing ==> forall i :: 0 <= i < |aiCars| ==>
        AiCarSteered(aiCars[i], !player.alive, time, player.alive, player.body.x, player.body.y, draws[i], diffs[i])
      ensures old(gameState) != Playing ==> forall i :: 0 <= i < |aiCars| ==>
        aiCars[i].body == old(aiCars[i].body) && aiCars[i].target == old(aiCars[i].target)
    {
      if gameState != Playing {
        return;
      }
      DrivePlayer(intent, speed);
      label driven:
      SteerThenCheck(time, draws, diffs);
      forall i | 0 <= i < |aiCars|
        ensures AiCarSteered(aiCars[i], !player.alive, time, player.alive, player.body.x, player.body.y, draws[i], diffs[i])
      {
        assert old@driven(aiCars[i].body) == old(aiCars[i].body);
        assert old@driven(aiCars[i].target) == old(aiCars[i].target);
      }
    }

    /** update after the player's car: the AI cars steer, then the lose
        check runs. */
    method SteerThenCheck(time: real, draws: seq<seq<real>>, diffs: seq<real>)
      requires Valid() && gameState == Playing
      requires |draws| >= |aiCars| && |diffs| >= |aiCars|
      requires forall i :: 0 <= i < |aiCars| ==> |draws[i]| >= 4 && AllDraws(draws[i])
      modifies aiCars`target, aiCars`body
      modifies this`gameState, this`outcome, this`powerupTimerPaused, this`pitfallTimerPaused, this`reportsPending
      ensures Valid()
      ensures !player.alive ==> EndedWith(false)
      ensures player.alive ==> FlowKept()
      ensures forall i :: 0 <= i < |aiCars| ==>
        AiCarSteered(aiCars[i], !player.alive, time, player.alive, player.body.x, player.body.y, draws[i], diffs[i])
    {
      SteerCars(time, draws, diffs);
      label steered:
      LoseCheck();
      forall i | 0 <= i < |aiCars|
        ensures AiCarSteered(aiCars[i], !player.alive, time, player.alive, player.body.x, player.body.y, draws[i], diffs[i])
      {
        assert aiCars[i].target == old@steered(aiCars[i].target);
        assert aiCars[i].body == if !player.alive then Halted(old@steered(aiCars[i].body)) else old@steered(aiCars[i].body);
      }
    }

    /** update's first step: player.update(time, delta) by the frame's control
        intent (the move itself is the physics step's). */
    method DrivePlayer(intent: ControlIntent, speed: real)
      requires Valid() && IsSpeed(speed, player.body)
      modifies player`body
      ensures Valid()
      ensures player.body == if player.alive
                             then Driven(old(player.body), PlayerDrive(intent, speed, player.speedMultiplier))
                             else old(player.body)
    {
      player.Update(intent, speed);
    }

    /** update's loop over the AI cars: every active, live one steers. */
    method SteerCars(time: real, draws: seq<seq<real>>, diffs: seq<real>)
      requires Valid()
      requires |draws| >= |aiCars| && |diffs| >= |aiCars|
      requires forall i :: 0 <= i < |aiCars| ==> |draws[i]| >= 4 && AllDraws(draws[i])
      modifies aiCars`target, aiCars`body
      ensures Valid()
      ensures forall i :: 0 <= i < |aiCars| ==>
        AiCarSteered(aiCars[i], false, time, player.alive, player.body.x, player.body.y, draws[i], diffs[i])
    {
      SteerAll(aiCars, time, player.alive, player.body.x, player.body.y, draws, diffs);
    }

    /** update's lose check: a dead player while the game is being played ends
        it in defeat. */
    method LoseCheck()
      requires Valid()
      modifies this`gameState, this`outcome, this`powerupTimerPaused, this`pitfallTimerPaused, this`reportsPending
      modifies aiCars`body
      ensures Valid()
      ensures old(gameState) == Playing && !player.alive ==> EndedWith(false)
      ensures old(gameState) != Playing || player.alive ==> FlowKept()
      ensures forall i :: 0 <= i < |aiCars| ==>
        aiCars[i].body == if old(gameState) == Playing && !player.alive then Halted(old(aiCars[i].body))
                          else old(aiCars[i].body)
    {
      if !player.alive && gameState == Playing {
        EndGame(false);
      }
    }

    /** The GameOverScene hand-off, the 1800 ms callback endGame schedules:
        the outcome, the score, how many of the opponents were destroyed, and
        the names the result screen shows. */
    method ReportResult() returns (r: Report)
      requires Valid() && reportsPending == 1
      modifies this`reportsPending
      ensures Valid() && reportsPending == 0
      ensures r == Result()
    {
      reportsPending := 0;
      r := Result();
    }

    /** The report the scene would hand off now: once the game is over, the
        destroyed count lies between 0 and the opponents' total, and a victory
        report counts every opponent destroyed. */
    function Result(): (r: Report)
      requires Valid()
      reads this, player, aiCars
      ensures 0 <= r.aiDestroyed <= r.totalOpponents == totalAiCount
      ensures r.victory <==> outcome == Decided(true)
      ensures r.victory ==> r.aiDestroyed == r.totalOpponents
      ensures r.score == player.score && r.playerMonsterName == player.monsterName
      ensures r.selectedMonster == selectedMonster
    {
      AliveWithin(aiCars, aiCarsAlive, aliveIndices);
      Report(outcome == Decided(true), player.score, totalAiCount - aiCarsAlive, totalAiCount,
             player.monsterName, selectedMonster)
    }

    // -------------------------------------------------------------------
    // Spawners

    /** spawnPowerup(), the power-up timer's callback: while the game is being
        played and fewer than three power-ups are on the field, a power-up of
        the drawn kind appears at the safe position the draws (rx, ry) give,
        with its 15 s despawn scheduled. */
    method SpawnPowerup(kind: PowerupKind, rx: real, ry: real)
      requires Valid() && IsDraw(rx) && IsDraw(ry)
      modifies this`powerups, this`nextId, this`despawnsPending
      ensures Valid()
      ensures old(gameState == Playing && |powerups| < POWERUP_MAX_COUNT) ==>
        powerups == old(powerups) + [Placed(old(nextId), kind, SafePosition(rx, ry))] &&
        nextId == old(nextId) + 1 && despawnsPending == old(despawnsPending) + {old(nextId)}
      ensures !old(gameState == Playing && |powerups| < POWERUP_MAX_COUNT) ==>
        powerups == old(powerups) && nextId == old(nextId) && despawnsPending == old(despawnsPending)
    {
      if gameState != Playing || |powerups| >= POWERUP_MAX_COUNT {
        return;
      }
      PlacePowerup(kind, SafePosition(rx, ry));
    }

    /** The new power-up added to the group under the next id. */
    method PlacePowerup(kind: PowerupKind, pos: Point)
      requires Valid() && |powerups| < POWERUP_MAX_COUNT
      modifies this`powerups, this`nextId, this`despawnsPending
      ensures Valid()
      ensures powerups == old(powerups) + [Placed(old(nextId), kind, pos)]
      ensures nextId == old(nextId) + 1 && despawnsPending == old(despawnsPending) + {old(nextId)}
    {
      PowerupAddedKeepsField(powerups, pitfalls, nextId, despawnsPending, evaporationsPending, Placed(nextId, kind, pos));
      powerups := powerups + [Placed(nextId, kind, pos)];
      despawnsPending := despawnsPending + {nextId};
      nextId := nextId + 1;
    }

    /** spawnPitfall(), the pitfall timer's callback: while the game is being
        played and fewer than four pitfalls are on the field, a pitfall of the
        drawn kind appears at the safe position; an oil slick has its 20 s
        evaporation scheduled. */
    method SpawnPitfall(kind: PitfallKind, rx: real, ry: real)
      requires Valid() && IsDraw(rx) && IsDraw(ry)
      modifies this`pitfalls, this`nextId, this`evaporationsPending
      ensures Valid()
      ensures old(gameState == Playing && |pitfalls| < PITFALL_MAX_COUNT) ==>
        pitfalls == old(pitfalls) + [Placed(old(nextId), kind, SafePosition(rx, ry))] &&
        nextId == old(nextId) + 1 &&
        evaporationsPending == old(evaporationsPending) + (if kind == OilSlick then {old(nextId)} else {})
      ensures !old(gameState == Playing && |pitfalls| < PITFALL_MAX_COUNT) ==>
        pitfalls == old(pitfalls) && nextId == old(nextId) && evaporationsPending == old(evaporationsPending)
    {
      if gameState != Playing || |pitfalls| >= PITFALL_MAX_COUNT {
        return;
      }
      PlacePitfall(kind, SafePosition(rx, ry));
    }

    /** The new pitfall added to the group under the next id. */
    method PlacePitfall(kind: PitfallKind, pos: Point)
      requires Valid() && |pitfalls| < PITFALL_MAX_COUNT
      modifies this`pitfalls, this`nextId, this`evaporationsPending
      ensures Valid()
      ensures pitfalls == old(pitfalls) + [Placed(old(nextId), kind, pos)]
      ensures nextId == old(nextId) + 1
      ensures evaporationsPending == old(evaporationsPending) + (if kind == OilSlick then {old(nextId)} else {})
    {
      PitfallAddedKeepsField(powerups, pitfalls, nextId, despawnsPending, evaporationsPending, Placed(nextId, kind, pos));
      pitfalls, evaporationsPending, nextId :=
        pitfalls + [Placed(nextId, kind, pos)], evaporationsPending + (if kind == OilSlick then {nextId} else {}), nextId + 1;
    }

    /** The 15 s despawn callback of the power-up with this id: it leaves the
        field if it is still there. */
    method DespawnPowerup(id: nat)
      requires Valid() && id in despawnsPending
      modifies this`powerups, this`despawnsPending
      ensures Valid()
      ensures Find(old(powerups), id) >= 0 ==> powerups == Removed(old(powerups), Find(old(powerups), id))
      ensures Find(old(powerups), id) < 0 ==> powerups == old(powerups)
      ensures Find(powerups, id) < 0 && despawnsPending == old(despawnsPending) - {id}
    {
      var i := Find(powerups, id);
      if i >= 0 {
        TakePowerup(i);
      }
      ForgetDespawn(id);
    }

    /** The despawn callback of an id no longer on the field is done. */
    method ForgetDespawn(id: nat)
      requires Valid() && Find(powerups, id) < 0
      modifies this`despawnsPending
      ensures Valid() && despawnsPending == old(despawnsPending) - {id}
    {
      DespawnDoneKeepsField(powerups, pitfalls, nextId, despawnsPending, evaporationsPending, id);
      despawnsPending := despawnsPending - {id};
    }

    /** The 20 s evaporation callback of the oil slick with this id: it leaves
        the field if it is still there. */
    method EvaporateOilSlick(id: nat)
      requires Valid() && id in evaporationsPending
      modifies this`pitfalls, this`evaporationsPending
      ensures Valid()
      ensures Find(old(pitfalls), id) >= 0 ==> pitfalls == Removed(old(pitfalls), Find(old(pitfalls), id))
      ensures Find(old(pitfalls), id) < 0 ==> pitfalls == old(pitfalls)
      ensures Find(pitfalls, id) < 0 && evaporationsPending == old(evaporationsPending) - {id}
    {
      var i := Find(pitfalls, id);
      if i >= 0 {
        TakePitfall(i);
      }
      ForgetEvaporation(id);
    }

    /** The evaporation callback of an id no longer on the field is done. */
    method ForgetEvaporation(id: nat)
      requires Valid() && Find(pitfalls, id) < 0
      modifies this`evaporationsPending
      ensures Valid() && evaporationsPending == old(evaporationsPending) - {id}
    {
      EvaporationDoneKeepsField(powerups, pitfalls, nextId, despawnsPending, evaporationsPending, id);
      evaporationsPending := evaporationsPending - {id};
    }

    /** pit.destroy() for the i-th pitfall on the field. */
    method TakePitfall(i: nat)
      requires Valid() && i < |pitfalls|
      modifies this`pitfalls
      ensures Valid() && pitfalls == Removed(old(pitfalls), i)
      ensures Find(pitfalls, old(pitfalls[i].id)) < 0
    {
      PitfallRemovedKeepsField(powerups, pitfalls, nextId, despawnsPending, evaporationsPending, i);
      pitfalls := Removed(pitfalls, i);
    }
  }

  /** create(data): the selected monster (the first of the roster when none is
      passed), its opponents, the scene set up for them, and the countdown
      started with every car frozen. A roster pick always faces four
      opponents. */
  method Create(chosen: Option<Monster>, aggressionDraws: seq<real>) returns (scene: GameScene)
    requires |aggressionDraws| >= OPPONENT_COUNT && AllDraws(aggressionDraws)
    ensures fresh(scene) && fresh(scene.player) && scene.Valid()
    ensures scene.selectedMonster == if chosen.Some? then chosen.value else ROSTER[0]
    ensures scene.player.monsterName == scene.selectedMonster.name
    ensures scene.totalAiCount == |Opponents(scene.selectedMonster)|
    ensures chosen.None? || chosen.value in ROSTER ==> scene.totalAiCount == OPPONENT_COUNT
    ensures forall i :: 0 <= i < |scene.aiCars| ==>
      fresh(scene.aiCars[i]) && scene.aiCars[i].monsterName == Opponents(scene.selectedMonster)[i].name
    ensures scene.gameState == Countdown && scene.countdown == 3
    ensures !scene.player.body.enabled && forall i :: 0 <= i < |scene.aiCars| ==> !scene.aiCars[i].body.enabled
  {
    var sel := if chosen.Some? then chosen.value else ROSTER[0];
    var opponents := Opponents(sel);
    if chosen.None? || chosen.value in ROSTER {
      var k :| 0 <= k < |ROSTER| && ROSTER[k] == sel;
      OpponentsOfRosterPick(k);
    }
    scene := Launch(sel, opponents, aggressionDraws);
  }

  /** create(data) once the selection and its opponents are known: spawn the
      player and the AI cars, set the scene up and start the countdown. */
  method Launch(sel: Monster, opponents: seq<Monster>, aggressionDraws: seq<real>) returns (scene: GameScene)
    requires |opponents| <= OPPONENT_COUNT <= |aggressionDraws| && AllDraws(aggressionDraws)
    ensures fresh(scene) && fresh(scene.player) && scene.Valid()
    ensures scene.selectedMonster == sel && scene.player.monsterName == sel.name
    ensures scene.totalAiCount == |opponents|
    ensures forall i :: 0 <= i < |scene.aiCars| ==>
      fresh(scene.aiCars[i]) && scene.aiCars[i].monsterName == opponents[i].name
    ensures scene.gameState == Countdown && scene.countdown == 3
    ensures !scene.player.body.enabled && forall i :: 0 <= i < |scene.aiCars| ==> !scene.aiCars[i].body.enabled
  {
    var p := SpawnPlayer(sel);
    var cars := SpawnAiCars(opponents, aggressionDraws);
    scene := new GameScene.Setup(sel, p, cars, opponents, aggressionDraws);
    scene.StartCountdown();
  }

  /** update's loop over the AI cars: each active, live car runs its own
      update with its draws and its angle to the target. */
  method SteerAll(cars: seq<AiCar>, time: real, playerAlive: bool, playerX: real, playerY: real,
                  draws: seq<seq<real>>, diffs: seq<real>)
    requires forall i, j :: 0 <= i < j < |cars| ==> cars[i] != cars[j]
    requires |draws| >= |cars| && |diffs| >= |cars|
    requires forall i :: 0 <= i < |cars| ==> |draws[i]| >= 4 && AllDraws(draws[i])
    modifies cars`target, cars`body
    ensures forall i :: 0 <= i < |cars| ==>
      AiCarSteered(cars[i], false, time, playerAlive, playerX, playerY, draws[i], diffs[i])
  {
    var k := 0;
    while k < |cars|
      invariant 0 <= k <= |cars|
      invariant forall j :: 0 <= j < k ==>
        AiCarSteered(cars[j], false, time, playerAlive, playerX, playerY, draws[j], diffs[j])
      invariant forall j :: k <= j < |cars| ==> cars[j].body == old(cars[j].body)
      invariant forall j :: k <= j < |cars| ==> cars[j].target == old(cars[j].target)
    {
      if cars[k].active && cars[k].alive {
        cars[k].Update(time, playerAlive, playerX, playerY, draws[k], diffs[k]);
      }
      k := k + 1;
    }
  }

  /** The body a hit leaves: disabled when the hit killed the car. */
  function AfterHit(v: Vitals, amount: real, b: Body): Body
  {
    if Kills(v, amount) then WithEnabled(b, false) else b
  }

  /** An AI body after a step of the scene: disabled by die() when its car
      died, and halted by endGame when the game ended. */
  function Followed(b: Body, died: bool, ended: bool): Body
  {
    var d := if died then WithEnabled(b, false) else b;
    if ended then Halted(d) else d
  }

  /** `after` follows `before`, the AI cars' bodies and liveness, over steps
      that only damage cars and that `ended` the game or not: no car came
      back to life, and each body is the one before, disabled when its car
      died and halted when the game ended. */
  ghost predicate FleetFollows(before: seq<(Body, bool)>, after: seq<(Body, bool)>, ended: bool)
  {
    |after| == |before| &&
    forall i :: 0 <= i < |before| ==>
      (after[i].1 ==> before[i].1) && after[i].0 == Followed(before[i].0, before[i].1 && !after[i].1, ended)
  }

  /** Two such steps make one: a car died in either, the game ended in either. */
  lemma FleetFollowsTwice(f0: seq<(Body, bool)>, f1: seq<(Body, bool)>, f2: seq<(Body, bool)>, e1: bool, e2: bool)
    requires FleetFollows(f0, f1, e1) && FleetFollows(f1, f2, e2)
    ensures FleetFollows(f0, f2, e1 || e2)
  {
    forall i | 0 <= i < |f0|
      ensures (f2[i].1 ==> f0[i].1) && f2[i].0 == Followed(f0[i].0, f0[i].1 && !f2[i].1, e1 || e2)
    {
      assert f1[i].0 == Followed(f0[i].0, f0[i].1 && !f1[i].1, e1);
    }
  }

  /** The AI cars' thrust cut and drag raised, as endGame does to each. */
  method HaltCars(cars: seq<AiCar>)
    requires forall i, j :: 0 <= i < j < |cars| ==> cars[i] != cars[j]
    modifies cars`body
    ensures forall i :: 0 <= i < |cars| ==> cars[i].body == Halted(old(cars[i].body))
  {
    var k := 0;
    while k < |cars|
      invariant 0 <= k <= |cars|
      invariant forall j :: 0 <= j < k ==> cars[j].body == Halted(old(cars[j].body))
      invariant forall j :: k <= j < |cars| ==> cars[j].body == old(cars[j].body)
      modifies cars`body
    {
      cars[k].body := Halted(cars[k].body);
      k := k + 1;
    }
  }
}
