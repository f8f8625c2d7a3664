/** The setup-scene zombie (src/scenes/setup/hostiles/SuperZombie.js): its
    fields, its update, and the per-body-part damage accounting of
    `UpdateColliders`. Bone transforms, animation mixing and model loading are
    left out; the state-machine steps are those of module SuperZombieStates. */
module SuperZombies {
  import opened Vectors
  import opened ZombieColliders
  import ZombieBase
  import S = SuperZombieStates

  // ---------------------------------------------------------------------------
  // The damage pass as functions

  /** Health lost to one collider's pending hit. */
  function PartHealthLoss(c: Collider): real
  {
    if !c.bulletHit then 0.0
    else if c.kind == HEAD then c.bulletDamage * 3.0
    else if c.kind == TORSO then c.bulletDamage * 1.5
    else if IsUpperLeg(c.kind) then c.bulletDamage * 0.8
    else if IsLowerLeg(c.kind) then c.bulletDamage
    else 0.0
  }

  /** Leg health lost to one collider's pending hit. */
  function PartLegLoss(c: Collider): real
  {
    if !c.bulletHit then 0.0
    else if IsUpperLeg(c.kind) then c.bulletDamage
    else if IsLowerLeg(c.kind) then c.bulletDamage * 1.3
    else 0.0
  }

  /** A collider after the pass: a pending hit is cleared only where it was read. */
  function Drained(c: Collider): Collider
  {
    if c.bulletHit && TakesDamage(c.kind) then c.(bulletHit := false) else c
  }

  function HealthLoss(cs: seq<Collider>): real
    decreases |cs|
  {
    if cs == [] then 0.0 else HealthLoss(cs[..|cs| - 1]) + PartHealthLoss(cs[|cs| - 1])
  }

  function LegLoss(cs: seq<Collider>): real
    decreases |cs|
  {
    if cs == [] then 0.0 else LegLoss(cs[..|cs| - 1]) + PartLegLoss(cs[|cs| - 1])
  }

  function DrainAll(cs: seq<Collider>): (r: seq<Collider>)
    ensures |r| == |cs|
    ensures forall i :: 0 <= i < |cs| ==> r[i] == Drained(cs[i])
  {
    seq(|cs|, i requires 0 <= i < |cs| => Drained(cs[i]))
  }

  /** `UpdateColliders` on the zombie's fields. */
  function Pass(z: S.Zombie): S.Zombie
  {
    z.(health := z.health - HealthLoss(z.colliders),
       legHealth := z.legHealth - LegLoss(z.colliders),
       colliders := DrainAll(z.colliders))
  }

  /** `OnUpdate(deltaTime)`: nothing before the setup is complete; then the time
      step is stored, the state machine runs once and the damage pass follows. */
  function Tick(z: S.Zombie, deltaTime: real, p: S.Percept): S.Zombie
  {
    if !z.setupComplete then z else Pass(S.Execute(z.(deltaTime := deltaTime), p))
  }

  /** The seven colliders of `CreateSkeletalColliders`, in its order. */
  function SkeletalColliders(): (cs: seq<Collider>)
    ensures |cs| == 7
    ensures forall i :: 0 <= i < 7 ==> 0 <= cs[i].kind < 7 && cs[i] == NewCollider(cs[i].kind)
    ensures forall i, j :: 0 <= i < j < 7 ==> cs[i].kind != cs[j].kind
  {
    [NewCollider(HEAD), NewCollider(TORSO), NewCollider(LEFTLEGUP), NewCollider(RIGHTLEGUP),
     NewCollider(LEFTLEGDOWN), NewCollider(RIGHTLEGDOWN), NewCollider(HAND)]
  }

  // ---------------------------------------------------------------------------
  // Properties of the damage pass

  /** Colliders without a pending hit cost nothing. */
  lemma {:induction false} NoPendingNoLoss(cs: seq<Collider>)
    requires forall i :: 0 <= i < |cs| ==> !cs[i].bulletHit
    ensures HealthLoss(cs) == 0.0 && LegLoss(cs) == 0.0
    ensures DrainAll(cs) == cs
    decreases |cs|
  {
    if cs != [] {
      NoPendingNoLoss(cs[..|cs| - 1]);
    }
  }

  /** With one pending hit, the pass costs exactly that collider's share. */
  lemma {:induction false} SoleHitCosts(cs: seq<Collider>, k: nat)
    requires k < |cs| && cs[k].bulletHit
    requires forall i :: 0 <= i < |cs| && i != k ==> !cs[i].bulletHit
    ensures HealthLoss(cs) == PartHealthLoss(cs[k])
    ensures LegLoss(cs) == PartLegLoss(cs[k])
    decreases |cs|
  {
    var n := |cs| - 1;
    if k == n {
      NoPendingNoLoss(cs[..n]);
    } else {
      SoleHitCosts(cs[..n], k);
    }
  }

  /** The multipliers: head 3, torso 1.5, upper leg 0.8 and 1 on the leg, lower
      leg 1 and 1.3 on the leg; the hit is cleared and the other colliders are
      left alone. */
  lemma PendingHitDamage(z: S.Zombie, k: nat)
    requires k < |z.colliders| && z.colliders[k].bulletHit
    requires forall i :: 0 <= i < |z.colliders| && i != k ==> !z.colliders[i].bulletHit
    ensures var d, r := z.colliders[k].bulletDamage, Pass(z);
      && (z.colliders[k].kind == HEAD ==>
            r.health == z.health - 3.0 * d && r.legHealth == z.legHealth)
      && (z.colliders[k].kind == TORSO ==>
            r.health == z.health - 1.5 * d && r.legHealth == z.legHealth)
      && (IsUpperLeg(z.colliders[k].kind) ==>
            r.health == z.health - 0.8 * d && r.legHealth == z.legHealth - d)
      && (IsLowerLeg(z.colliders[k].kind) ==>
            r.health == z.health - d && r.legHealth == z.legHealth - 1.3 * d)
      && (TakesDamage(z.colliders[k].kind) ==> !r.colliders[k].bulletHit)
      && (forall i :: 0 <= i < |z.colliders| && i != k ==> r.colliders[i] == z.colliders[i])
  {
    SoleHitCosts(z.colliders, k);
  }

  /** A pass without pending hits changes nothing. */
  lemma QuietPassChangesNothing(z: S.Zombie)
    requires forall i :: 0 <= i < |z.colliders| ==> !z.colliders[i].bulletHit
    ensures Pass(z) == z
  {
    NoPendingNoLoss(z.colliders);
  }

  /** After a pass, the only pending hits left are on colliders the pass does not read. */
  lemma {:induction false} DrainedCostsNothing(cs: seq<Collider>)
    ensures HealthLoss(DrainAll(cs)) == 0.0 && LegLoss(DrainAll(cs)) == 0.0
    decreases |cs|
  {
    if cs != [] {
      var n := |cs| - 1;
      assert DrainAll(cs)[..n] == DrainAll(cs[..n]);
      DrainedCostsNothing(cs[..n]);
    }
  }

  /** Each hit is applied exactly once: a second pass without new hits leaves
      health, leg health and the colliders as the first left them. */
  lemma PassIsIdempotent(z: S.Zombie)
    ensures Pass(Pass(z)) == Pass(z)
  {
    DrainedCostsNothing(z.colliders);
    var cs := DrainAll(z.colliders);
    assert DrainAll(cs) == cs;
  }

  /** Hand colliders never cost health and keep their pending flag. */
  lemma HandIgnored(z: S.Zombie, k: nat)
    requires k < |z.colliders| && z.colliders[k].kind == HAND
    ensures PartHealthLoss(z.colliders[k]) == 0.0 && PartLegLoss(z.colliders[k]) == 0.0
    ensures Pass(z).colliders[k] == z.colliders[k]
  {
  }

  /** A zombie at health 100 and leg health 50, idle and unseen, takes one head
      hit of 20: after the update it has health 40, the same leg health, and is
      still idle. */
  lemma HeadShotScenario(z: S.Zombie, p: S.Percept)
    requires z.state == S.Idle && z.setupComplete && !p.canSee && !p.canSmell
    requires z.health == 100.0 && z.legHealth == 50.0
    requires z.colliders == SkeletalColliders()[0 := SkeletalColliders()[0].(bulletHit := true, bulletDamage := 20.0)]
    ensures Tick(z, 0.016, p).health == 40.0
    ensures Tick(z, 0.016, p).legHealth == 50.0
    ensures Tick(z, 0.016, p).state == S.Idle
  {
    var z1 := S.Execute(z.(deltaTime := 0.016), p);
    assert z1.colliders == z.colliders;
    PendingHitDamage(z1, 0);
  }

  /** A torso hit of 80 on a zombie at health 100 leaves it at -20 after one
      update, and the next update moves it to Dead. */
  lemma TorsoKillScenario(z: S.Zombie, p: S.Percept, q: S.Percept)
    requires z.state == S.Idle && z.setupComplete && !p.canSee && !p.canSmell
    requires z.health == 100.0 && z.legHealth == 50.0
    requires z.colliders == SkeletalColliders()[1 := SkeletalColliders()[1].(bulletHit := true, bulletDamage := 80.0)]
    ensures Tick(z, 0.016, p).health == -20.0
    ensures Tick(Tick(z, 0.016, p), 0.016, q).state == S.Dead
  {
    var z1 := S.Execute(z.(deltaTime := 0.016), p);
    assert z1.colliders == z.colliders;
    PendingHitDamage(z1, 1);
  }

  // ---------------------------------------------------------------------------
  // The zombie object

  /** The values of the fields `legHealth`, `playerPos` and `targetPos`, which
      the zombie reads but neither it nor its manager ever assigns. */
  datatype Unassigned = Unassigned(legHealth: real, playerPos: Vec3, targetPos: Vec3)

  /** The fields of a newly constructed zombie. */
  function Initial(outside: Unassigned): (z: S.Zombie)
    ensures z.state == S.Init && S.Code(z.state) == 10000
    ensures !z.setupComplete && z.colliders == []
    ensures z.health == ZombieBase.NewZombie().health
    ensures z.speed == 1.1 && z.playerDamage == 0
  {
    S.Zombie(S.Init, 100.0, outside.legHealth, 1.1, false, false, false, false,
             0, false, outside.targetPos, outside.playerPos, 0.0, 0.0, [])
  }

  /** A zombie that has not finished loading is not changed by an update. */
  lemma InertUntilSetup(z: S.Zombie, deltaTime: real, p: S.Percept)
    requires !z.setupComplete
    ensures Tick(z, deltaTime, p) == z
  {
  }

  /** The visibility of `collisionShape`, when that object exists. */
  datatype Shape = NoShape | Shape(visible: bool)

  class SuperZombie {
    var state: S.ZState
    var health: real
    var legHealth: real
    var speed: real
    var isMoving: bool
    var noPath: bool
    var isDead: bool
    var attackCooldown: bool
    var PlayerDamage: int
    var SetupComplete: bool
    var targetPos: Vec3
    var playerPos: Vec3
    var yaw: real
    var deltaTime: real
    var colliders: array<Collider>
    var collisionShape: Shape
    /** The position the model is placed at once it has loaded. */
    const initialPosition: Vec3

    function Snapshot(): S.Zombie
      reads this, colliders
    {
      S.Zombie(state, health, legHealth, speed, isMoving, noPath, isDead, attackCooldown,
               PlayerDamage, SetupComplete, targetPos, playerPos, yaw, deltaTime, colliders[..])
    }

    /** Health and speed come from the base zombie, the speed is then set to 1.1
        and the machine starts in Init. */
    constructor (initialPosition: Vec3, outside: Unassigned)
      ensures fresh(colliders)
      ensures this.initialPosition == initialPosition
      ensures collisionShape == NoShape
      ensures Snapshot() == Initial(outside)
    {
      var legHealth, playerPos, targetPos := outside.legHealth, outside.playerPos, outside.targetPos;
      var base := ZombieBase.NewZombie();
      this.health := base.health;
      this.speed := base.speed;
      this.SetupComplete := false;
      this.speed := 1.1;
      this.deltaTime := 0.0;
      this.PlayerDamage := 0;
      this.colliders := new Collider[0];
      this.initialPosition := initialPosition;
      this.collisionShape := NoShape;
      this.legHealth := legHealth;
      this.playerPos := playerPos;
      this.targetPos := targetPos;
      this.isMoving := false;
      this.noPath := false;
      this.isDead := false;
      this.attackCooldown := false;
      this.yaw := 0.0;
      this.state := S.Init;
    }

    /** The load callback: the colliders are built from the loaded model,
        which has `skinnedMeshes` skinned meshes, and the zombie becomes ready. */
    method OnModelLoaded(skinnedMeshes: nat)
      modifies this
      ensures skinnedMeshes > 0 ==> fresh(colliders)
      ensures Snapshot() == old(Snapshot()).(setupComplete := true,
        colliders := if skinnedMeshes > 0 then SkeletalColliders() else old(Snapshot()).colliders)
      ensures collisionShape == old(collisionShape)
    {
      CreateSkeletalColliders(skinnedMeshes);
      SetupComplete := true;
    }

    /** The traversal of the model: every skinned mesh it meets replaces the
        collider array by a new one holding the seven skeletal colliders; a
        model without one leaves the array as it was. */
    method CreateSkeletalColliders(skinnedMeshes: nat)
      modifies this
      ensures skinnedMeshes > 0 ==> fresh(colliders)
      ensures Snapshot() == old(Snapshot()).(
        colliders := if skinnedMeshes > 0 then SkeletalColliders() else old(Snapshot()).colliders)
      ensures collisionShape == old(collisionShape)
    {
      var cs := SkeletalColliders();
      for k := 0 to skinnedMeshes
        invariant k > 0 ==> fresh(colliders)
        invariant Snapshot() == old(Snapshot()).(colliders := if k > 0 then cs else old(Snapshot()).colliders)
        invariant collisionShape == old(collisionShape)
      {
        colliders := new Collider[7](i requires 0 <= i < 7 => cs[i]);
        assert colliders[..] == cs;
      }
    }

    /** Sets the speed (the animation time scales are left out). */
    method SetSpeed(speed: real)
      modifies this`speed
      ensures Snapshot() == old(Snapshot()).(speed := speed)
    {
      this.speed := speed;
    }

    /** Shows or hides `collisionShape` when it exists. */
    method ToggleCollisionShapeVisibility(visible: bool)
      modifies this`collisionShape
      ensures collisionShape == if old(collisionShape).Shape? then Shape(visible) else NoShape
    {
      if collisionShape.Shape? {
        collisionShape := Shape(visible);
      }
    }

    /** `stateMachine.changeTo(s)`: the new state's `enter` effects. */
    method ChangeTo(s: S.ZState)
      modifies this`state, this`isMoving, this`speed, this`noPath
      ensures Snapshot() == S.ChangeTo(old(Snapshot()), s)
    {
      state := s;
      match s
      case Idle => isMoving := false;
      case Walking => speed := 1.0; isMoving := true; noPath := false;
      case Aggravated => speed := 1.5; isMoving := true; noPath := false;
      case Attack => isMoving := false;
      case Injured => isMoving := true; noPath := false;
      case Dead => isMoving := false;
      case Init =>
      case Startled =>
    }

    /** `stateMachine.update()`: runs the current state's `execute`. Reports
        whether it asked to move towards the target. */
    method Execute(p: S.Percept) returns (moved: bool)
      modifies this`state, this`isMoving, this`speed, this`noPath, this`targetPos, this`yaw
      modifies this`PlayerDamage, this`attackCooldown, this`isDead
      ensures Snapshot() == S.Execute(old(Snapshot()), p)
      ensures moved == S.MovesToTarget(old(Snapshot()), p)
    {
      moved := false;
      match state
      case Init => ExecuteInit();
      case Idle => ExecuteIdle(p);
      case Walking => moved := ExecuteWalking(p);
      case Aggravated => moved := ExecuteAggravated(p);
      case Attack => ExecuteAttack(p);
      case Injured => ExecuteInjured(p);
      case Startled =>
      case Dead => ExecuteDead(p);
    }

    method ExecuteInit()
      requires state == S.Init
      modifies this`state, this`isMoving, this`speed, this`noPath, this`targetPos
      ensures Snapshot() == S.ExecuteInit(old(Snapshot()))
    {
      if SetupComplete {
        targetPos := Vec3(0.0, 0.0, 20.0);
        ChangeTo(S.Idle);
      }
    }

    method ExecuteIdle(p: S.Percept)
      requires state == S.Idle
      modifies this`state, this`isMoving, this`speed, this`noPath, this`yaw
      ensures Snapshot() == S.ExecuteIdle(old(Snapshot()), p)
    {
      if health < 0.0 { ChangeTo(S.Dead); return; }
      if legHealth < 0.0 { ChangeTo(S.Injured); return; }
      if p.canSee && !noPath { ChangeTo(S.Aggravated); return; }
      if p.canSmell {
        yaw := yaw + 0.5 * speed * deltaTime;
      }
    }

    method ExecuteWalking(p: S.Percept) returns (moved: bool)
      requires state == S.Walking
      modifies this`state, this`isMoving, this`speed, this`noPath
      ensures Snapshot() == S.ExecuteWalking(old(Snapshot()), p)
      ensures moved == S.MovesToTarget(old(Snapshot()), p)
    {
      moved := false;
      if health < 0.0 { ChangeTo(S.Dead); return; }
      if legHealth < 0.0 { ChangeTo(S.Injured); return; }
      if noPath { ChangeTo(S.Idle); return; }
      if p.canSee { ChangeTo(S.Aggravated); return; }
      moved := true;
    }

    method ExecuteAggravated(p: S.Percept) returns (moved: bool)
      requires state == S.Aggravated
      modifies this`state, this`isMoving, this`speed, this`noPath, this`targetPos
      ensures Snapshot() == S.ExecuteAggravated(old(Snapshot()), p)
      ensures moved == S.MovesToTarget(old(Snapshot()), p)
    {
      moved := false;
      if health < 0.0 { ChangeTo(S.Dead); return; }
      if legHealth < 0.0 { ChangeTo(S.Injured); return; }
      targetPos := playerPos;
      moved := true;
      if !p.canSee { ChangeTo(S.Idle); return; }
      if p.canAttack { ChangeTo(S.Attack); return; }
    }

    method ExecuteAttack(p: S.Percept)
      requires state == S.Attack
      modifies this`state, this`isMoving, this`speed, this`noPath, this`PlayerDamage, this`attackCooldown
      ensures Snapshot() == S.ExecuteAttack(old(Snapshot()), p)
    {
      if health < 0.0 { ChangeTo(S.Dead); return; }
      if legHealth < 0.0 { ChangeTo(S.Injured); return; }
      var canAttack := p.canAttack;
      var progress := p.attackProgress;
      if progress > 0.5 && canAttack && !attackCooldown {
        PlayerDamage := 40;
        attackCooldown := true;
        return;
      } else if progress < 0.5 {
        attackCooldown := false;
      }
      if !canAttack { ChangeTo(S.Aggravated); return; }
    }

    method ExecuteInjured(p: S.Percept)
      requires state == S.Injured
      modifies this`state, this`isMoving, this`speed, this`noPath, this`PlayerDamage
      ensures Snapshot() == S.ExecuteInjured(old(Snapshot()), p)
    {
      if health < 0.0 { ChangeTo(S.Dead); return; }
      if p.canAttack {
        PlayerDamage := 5;
      }
    }

    method ExecuteDead(p: S.Percept)
      requires state == S.Dead
      modifies this`isDead
      ensures Snapshot() == S.ExecuteDead(old(Snapshot()), p)
    {
      if p.dieBackTime >= p.dieBackDuration {
        isDead := true;
      }
    }

    /** The damage pass: every pending hit on a damage-bearing collider is turned
        into health and leg-health loss and cleared. */
    method UpdateColliders()
      modifies this`health, this`legHealth, colliders
      ensures Snapshot() == Pass(old(Snapshot()))
    {
      ghost var cs := colliders[..];
      var i := 0;
      while i < colliders.Length
        invariant 0 <= i <= colliders.Length
        invariant forall k :: 0 <= k < i ==> colliders[k] == Drained(cs[k])
        invariant forall k :: i <= k < colliders.Length ==> colliders[k] == cs[k]
        invariant health == old(health) - HealthLoss(cs[..i])
        invariant legHealth == old(legHealth) - LegLoss(cs[..i])
      {
        assert cs[..i + 1][..i] == cs[..i];
        UpdateCollider(i);
        i := i + 1;
      }
      assert cs[..i] == cs;
      assert colliders[..] == DrainAll(cs);
    }

    /** One case of the switch in the damage pass, for collider `i`. */
    method UpdateCollider(i: nat)
      requires i < colliders.Length
      modifies this`health, this`legHealth, colliders
      ensures colliders[i] == Drained(old(colliders[i]))
      ensures forall k :: 0 <= k < colliders.Length && k != i ==> colliders[k] == old(colliders[k])
      ensures health == old(health) - PartHealthLoss(old(colliders[i]))
      ensures legHealth == old(legHealth) - PartLegLoss(old(colliders[i]))
    {
      var c := colliders[i];
      if c.kind == HEAD {
        if c.bulletHit {
          health := health - c.bulletDamage * 3.0;
          colliders[i] := c.(bulletHit := false);
        }
      } else if c.kind == TORSO {
        if c.bulletHit {
          health := health - c.bulletDamage * 1.5;
          colliders[i] := c.(bulletHit := false);
        }
      } else if c.kind == HAND {
      } else if c.kind == LEFTLEGUP || c.kind == RIGHTLEGUP {
        if c.bulletHit {
          health := health - c.bulletDamage * 0.8;
          legHealth := legHealth - c.bulletDamage;
          colliders[i] := c.(bulletHit := false);
        }
      } else if c.kind == LEFTLEGDOWN || c.kind == RIGHTLEGDOWN {
        if c.bulletHit {
          health := health - c.bulletDamage;
          legHealth := legHealth - c.bulletDamage * 1.3;
          colliders[i] := c.(bulletHit := false);
        }
      }
    }

    /** One frame: inert until the setup is complete, then the state machine
        and the damage pass. */
    method OnUpdate(deltaTime: real, p: S.Percept)
      modifies this`state, this`isMoving, this`speed, this`noPath, this`targetPos, this`yaw
      modifies this`PlayerDamage, this`attackCooldown, this`isDead
      modifies this`health, this`legHealth, this`deltaTime, colliders
      ensures Snapshot() == Tick(old(Snapshot()), deltaTime, p)
    {
      if !SetupComplete {
        return;
      }
      this.deltaTime := deltaTime;
      var _ := Execute(p);
      UpdateColliders();
    }
  }
}
