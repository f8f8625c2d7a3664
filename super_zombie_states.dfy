/** The behaviour state machine of the setup-scene zombie
    (src/scenes/setup/hostiles/SuperZombieStates.js), written as pure transition
    functions over a record of the zombie's fields. The class in module
    SuperZombies performs the same steps in place and is proved to agree with
    `Execute` and `ChangeTo`. */
module SuperZombieStates {
  import opened Vectors
  import opened ZombieColliders

  datatype ZState = Init | Idle | Walking | Aggravated | Attack | Injured | Startled | Dead

  /** The key under which each state is registered in the state machine:
      IDLE..DEAD are 0..6 (the codes of src/hostiles/ZombieBase.js), Init is 10000. */
  function Code(s: ZState): (c: int)
    ensures s == Init <==> c == 10000
    ensures s != Init ==> 0 <= c <= 6
  {
    match s
    case Init => 10000
    case Idle => 0
    case Walking => 1
    case Aggravated => 2
    case Attack => 3
    case Injured => 4
    case Startled => 5
    case Dead => 6
  }

  lemma CodesDistinct(s: ZState, t: ZState)
    ensures Code(s) == Code(t) <==> s == t
  {
  }

  /** What the zombie senses and what its animations report during one update:
      the three perception predicates, the attack clip's time divided by its
      duration, and the death clip's time and duration. */
  datatype Percept = Percept(
    canSee: bool,
    canSmell: bool,
    canAttack: bool,
    attackProgress: real,
    dieBackTime: real,
    dieBackDuration: real)

  /** The zombie's fields that the states, the update and the damage pass read
      or write. `playerDamage` is `PlayerDamage`, `yaw` is `mesh.rotation.y`. */
  datatype Zombie = Zombie(
    state: ZState,
    health: real,
    legHealth: real,
    speed: real,
    isMoving: bool,
    noPath: bool,
    isDead: bool,
    attackCooldown: bool,
    playerDamage: int,
    setupComplete: bool,
    targetPos: Vec3,
    playerPos: Vec3,
    yaw: real,
    deltaTime: real,
    colliders: seq<Collider>)

  /** The `enter` hook of each state. */
  function Enter(z: Zombie, s: ZState): Zombie
  {
    match s
    case Init => z
    case Idle => z.(isMoving := false)
    case Walking => z.(speed := 1.0, isMoving := true, noPath := false)
    case Aggravated => z.(speed := 1.5, isMoving := true, noPath := false)
    case Attack => z.(isMoving := false)
    case Injured => z.(isMoving := true, noPath := false)
    case Startled => z
    case Dead => z.(isMoving := false)
  }

  /** `stateMachine.changeTo(s)`: the old state's `exit` (sound only) and the
      new state's `enter`. */
  function ChangeTo(z: Zombie, s: ZState): (r: Zombie)
    ensures r.state == s
  {
    Enter(z.(state := s), s)
  }

  /** The death check, then the injury check, shared by four states. */
  predicate Dying(z: Zombie) { z.health < 0.0 }
  predicate Crippled(z: Zombie) { z.legHealth < 0.0 }

  function ExecuteInit(z: Zombie): Zombie
  {
    if z.setupComplete then ChangeTo(z.(targetPos := Vec3(0.0, 0.0, 20.0)), Idle)
    else z
  }

  function ExecuteIdle(z: Zombie, p: Percept): Zombie
  {
    if Dying(z) then ChangeTo(z, Dead)
    else if Crippled(z) then ChangeTo(z, Injured)
    else if p.canSee && !z.noPath then ChangeTo(z, Aggravated)
    else if p.canSmell then z.(yaw := z.yaw + 0.5 * z.speed * z.deltaTime)
    else z
  }

  function ExecuteWalking(z: Zombie, p: Percept): Zombie
  {
    if Dying(z) then ChangeTo(z, Dead)
    else if Crippled(z) then ChangeTo(z, Injured)
    else if z.noPath then ChangeTo(z, Idle)
    else if p.canSee then ChangeTo(z, Aggravated)
    else z
  }

  function ExecuteAggravated(z: Zombie, p: Percept): Zombie
  {
    if Dying(z) then ChangeTo(z, Dead)
    else if Crippled(z) then ChangeTo(z, Injured)
    else
      var chasing := z.(targetPos := z.playerPos);
      if !p.canSee then ChangeTo(chasing, Idle)
      else if p.canAttack then ChangeTo(chasing, Attack)
      else chasing
  }

  /** The attack lands: past the middle of the clip, in range, no cooldown. */
  predicate Strikes(z: Zombie, p: Percept)
  {
    z.state == Attack && !Dying(z) && !Crippled(z)
    && p.attackProgress > 0.5 && p.canAttack && !z.attackCooldown
  }

  function ExecuteAttack(z: Zombie, p: Percept): Zombie
  {
    if Dying(z) then ChangeTo(z, Dead)
    else if Crippled(z) then ChangeTo(z, Injured)
    else if p.attackProgress > 0.5 && p.canAttack && !z.attackCooldown then
      z.(playerDamage := 40, attackCooldown := true)
    else
      var z1 := if p.attackProgress < 0.5 then z.(attackCooldown := false) else z;
      if !p.canAttack then ChangeTo(z1, Aggravated) else z1
  }

  function ExecuteInjured(z: Zombie, p: Percept): Zombie
  {
    if Dying(z) then ChangeTo(z, Dead)
    else if p.canAttack then z.(playerDamage := 5)
    else z
  }

  function ExecuteDead(z: Zombie, p: Percept): Zombie
  {
    if p.dieBackTime >= p.dieBackDuration then z.(isDead := true) else z
  }

  /** `stateMachine.update()`: the current state's `execute`. */
  function Execute(z: Zombie, p: Percept): Zombie
  {
    match z.state
    case Init => ExecuteInit(z)
    case Idle => ExecuteIdle(z, p)
    case Walking => ExecuteWalking(z, p)
    case Aggravated => ExecuteAggravated(z, p)
    case Attack => ExecuteAttack(z, p)
    case Injured => ExecuteInjured(z, p)
    case Startled => z
    case Dead => ExecuteDead(z, p)
  }

  /** Whether this update calls `MoveToTarget` (whose effect is not modelled). */
  predicate MovesToTarget(z: Zombie, p: Percept)
  {
    !Dying(z) && !Crippled(z) &&
    ((z.state == Walking && !z.noPath && !p.canSee) || z.state == Aggravated)
  }

  // ---------------------------------------------------------------------------
  // Properties of single steps

  /** Every state's `enter` effect on isMoving, speed and noPath; the other
      fields are those of the zombie before the change. */
  lemma EnterEffects(z: Zombie, s: ZState)
    ensures var r := ChangeTo(z, s);
      && r.state == s
      && r.isMoving == (if s in {Idle, Attack, Dead} then false
                        else if s in {Walking, Aggravated, Injured} then true
                        else z.isMoving)
      && r.speed == (if s == Walking then 1.0 else if s == Aggravated then 1.5 else z.speed)
      && r.noPath == (if s in {Walking, Aggravated, Injured} then false else z.noPath)
      && r.(state := z.state, isMoving := z.isMoving, speed := z.speed, noPath := z.noPath) == z
  {
  }

  /** Init waits for the asset setup; then it aims at (0, 0, 20) and goes idle. */
  lemma InitWaitsForSetup(z: Zombie, p: Percept)
    requires z.state == Init
    ensures !z.setupComplete ==> Execute(z, p) == z
    ensures z.setupComplete ==>
      Execute(z, p) == z.(state := Idle, targetPos := Vec3(0.0, 0.0, 20.0), isMoving := false)
  {
  }

  /** In Idle, Walking, Aggravated and Attack a negative health forces Dead before
      anything else, and then a negative leg health forces Injured. Both
      comparisons are strict. */
  lemma DeathThenInjuryFirst(z: Zombie, p: Percept)
    requires z.state in {Idle, Walking, Aggravated, Attack}
    ensures Execute(z, p).state == Dead <==> z.health < 0.0
    ensures z.health < 0.0 ==> Execute(z, p) == z.(state := Dead, isMoving := false)
    ensures z.health >= 0.0 ==> (Execute(z, p).state == Injured <==> z.legHealth < 0.0)
    ensures z.health >= 0.0 && z.legHealth < 0.0 ==>
      Execute(z, p) == z.(state := Injured, isMoving := true, noPath := false)
  {
  }

  /** Idle turns aggravated exactly when it sees the player and has a path;
      otherwise it only turns towards a player it smells. */
  lemma IdleReacts(z: Zombie, p: Percept)
    requires z.state == Idle && z.health >= 0.0 && z.legHealth >= 0.0
    ensures Execute(z, p).state == Aggravated <==> p.canSee && !z.noPath
    ensures !(p.canSee && !z.noPath) ==>
      Execute(z, p) == z.(yaw := if p.canSmell then z.yaw + 0.5 * z.speed * z.deltaTime else z.yaw)
  {
  }

  /** Walking checks, in this order: no path, then sight, else it keeps moving. */
  lemma WalkingOrder(z: Zombie, p: Percept)
    requires z.state == Walking && z.health >= 0.0 && z.legHealth >= 0.0
    ensures z.noPath ==> Execute(z, p) == z.(state := Idle, isMoving := false)
    ensures !z.noPath && p.canSee ==>
      Execute(z, p) == z.(state := Aggravated, speed := 1.5, isMoving := true)
    ensures !z.noPath && !p.canSee ==> Execute(z, p) == z && MovesToTarget(z, p)
  {
  }

  /** Aggravated chases the player's position; losing sight beats being in
      range; noPath plays no part. */
  lemma AggravatedPursues(z: Zombie, p: Percept)
    requires z.state == Aggravated && z.health >= 0.0 && z.legHealth >= 0.0
    ensures Execute(z, p).targetPos == z.playerPos && MovesToTarget(z, p)
    ensures Execute(z, p).state ==
      (if !p.canSee then Idle else if p.canAttack then Attack else Aggravated)
  {
  }

  /** Aggravated ignores noPath: the update with either value differs only in it. */
  lemma AggravatedIgnoresNoPath(z: Zombie, p: Percept, b: bool)
    requires z.state == Aggravated && z.health >= 0.0 && z.legHealth >= 0.0
    ensures Execute(z.(noPath := b), p) == Execute(z, p).(noPath := b)
  {
    var chasing := z.(targetPos := z.playerPos);
    var r := if !p.canSee then chasing.(state := Idle, isMoving := false)
             else if p.canAttack then chasing.(state := Attack, isMoving := false)
             else chasing;
    assert Execute(z, p) == r;
    assert Execute(z.(noPath := b), p) == r.(noPath := b);
  }

  /** The strike: 40 damage and the cooldown set, staying in Attack. */
  lemma AttackStrike(z: Zombie, p: Percept)
    requires Strikes(z, p)
    ensures Execute(z, p) == z.(playerDamage := 40, attackCooldown := true)
  {
  }

  /** Without a strike: the cooldown clears below the middle of the clip and is
      kept at exactly the middle; the damage is untouched; out of range the
      zombie goes back to Aggravated. */
  lemma AttackWithoutStrike(z: Zombie, p: Percept)
    requires z.state == Attack && z.health >= 0.0 && z.legHealth >= 0.0
    requires !Strikes(z, p)
    ensures Execute(z, p).playerDamage == z.playerDamage
    ensures Execute(z, p).attackCooldown ==
      (if p.attackProgress < 0.5 then false else z.attackCooldown)
    ensures Execute(z, p).state == (if p.canAttack then Attack else Aggravated)
  {
  }

  /** Injured only leaves through death, and hits the player for 5 while in range. */
  lemma InjuredCrawls(z: Zombie, p: Percept)
    requires z.state == Injured
    ensures Execute(z, p).state == (if z.health < 0.0 then Dead else Injured)
    ensures z.health >= 0.0 ==>
      Execute(z, p) == (if p.canAttack then z.(playerDamage := 5) else z)
  {
  }

  /** Startled does nothing at all. */
  lemma StartledInert(z: Zombie, p: Percept)
    requires z.state == Startled
    ensures Execute(z, p) == z
  {
  }

  /** Dead changes nothing but `isDead`, set once the death clip has played out. */
  lemma DeadOnlyFlagsIsDead(z: Zombie, p: Percept)
    requires z.state == Dead
    ensures Execute(z, p) ==
      z.(isDead := z.isDead || p.dieBackTime >= p.dieBackDuration)
  {
  }

  /** No update ever enters Init or Startled: nothing changes to them. */
  lemma InitAndStartledNeverEntered(z: Zombie, p: Percept)
    ensures Execute(z, p).state == Init ==> z.state == Init
    ensures Execute(z, p).state == Startled ==> z.state == Startled
  {
    match z.state
    case Init =>
    case Idle =>
    case Walking =>
    case Aggravated =>
    case Attack =>
    case Injured =>
    case Startled =>
    case Dead =>
  }

  // ---------------------------------------------------------------------------
  // Properties of runs of updates

  /** The zombie after one update per percept, in order. */
  function Run(z: Zombie, ps: seq<Percept>): Zombie
    decreases |ps|
  {
    if ps == [] then z else Run(Execute(z, ps[0]), ps[1..])
  }

  /** How many of those updates strike the player. */
  function StrikeCount(z: Zombie, ps: seq<Percept>): nat
    decreases |ps|
  {
    if ps == [] then 0
    else (if Strikes(z, ps[0]) then 1 else 0) + StrikeCount(Execute(z, ps[0]), ps[1..])
  }

  /** While the attack clip stays at or past its middle, a set cooldown stays set. */
  lemma CooldownHolds(z: Zombie, p: Percept)
    requires z.attackCooldown && p.attackProgress >= 0.5
    ensures Execute(z, p).attackCooldown
  {
    match z.state
    case Init =>
    case Idle =>
    case Walking =>
    case Aggravated =>
    case Attack =>
      assert !Strikes(z, p);
    case Injured =>
    case Startled =>
    case Dead =>
  }

  /** A strike sets the cooldown. */
  lemma StrikeSetsCooldown(z: Zombie, p: Percept)
    requires Strikes(z, p)
    ensures Execute(z, p).attackCooldown
  {
  }

  /** At most one strike per clip cycle: over updates that all see the clip at
      or past its middle there is at most one strike, and none when the
      cooldown is already set. */
  lemma {:induction false} OneStrikePerCycle(z: Zombie, ps: seq<Percept>)
    requires forall i :: 0 <= i < |ps| ==> ps[i].attackProgress >= 0.5
    ensures StrikeCount(z, ps) <= 1
    ensures z.attackCooldown ==> StrikeCount(z, ps) == 0
    decreases |ps|
  {
    if ps != [] {
      var z1 := Execute(z, ps[0]);
      if z.attackCooldown {
        CooldownHolds(z, ps[0]);
      } else if Strikes(z, ps[0]) {
        StrikeSetsCooldown(z, ps[0]);
      }
      OneStrikePerCycle(z1, ps[1..]);
    }
  }

  /** Dead is terminal: after any number of updates the zombie is still dead and
      only `isDead` may have changed, from false to true. */
  lemma {:induction false} DeadIsTerminal(z: Zombie, ps: seq<Percept>)
    requires z.state == Dead
    ensures Run(z, ps).state == Dead
    ensures Run(z, ps).(isDead := z.isDead) == z
    ensures z.isDead ==> Run(z, ps).isDead
    decreases |ps|
  {
    if ps != [] {
      DeadOnlyFlagsIsDead(z, ps[0]);
      DeadIsTerminal(Execute(z, ps[0]), ps[1..]);
    }
  }

  /** A zombie never reaches Dead without a negative health somewhere on the way:
      no update moves into Dead from a non-negative health. */
  lemma DeathNeedsNegativeHealth(z: Zombie, p: Percept)
    requires z.state != Dead && Execute(z, p).state == Dead
    ensures z.health < 0.0
  {
  }
}
