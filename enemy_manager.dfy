/** The setup-scene enemy manager (src/scenes/setup/hostiles/EnemyManager.js):
    it creates a fixed number of zombies and updates those that have loaded. */
module EnemyManagers {
  import opened Vectors
  import S = SuperZombieStates
  import opened SuperZombies

  /** Where the constructor places zombie `i`. */
  function SpawnPosition(i: nat): (v: Vec3)
    ensures v.x == 2.0 * (i as real) && v.y == 0.0 && v.z == 5.0
  {
    Vec3(2.0 * (i as real), 0.0, 5.0)
  }

  /** What the manager's update does to one zombie: loaded zombies are
      updated, the others are left as they are. */
  function Stepped(z: S.Zombie, deltaTime: real, p: S.Percept): (r: S.Zombie)
    ensures !z.setupComplete ==> r == z
  {
    if z.setupComplete then Tick(z, deltaTime, p) else z
  }

  class EnemyManager {
    const zombieNum: nat
    var SuperZombies: seq<SuperZombie>
    /** The accumulated damage to the player. The manager's own code never
        defines it; the scene reads and clears it. */
    var totalPlayerDamage: real

    ghost function ColliderArrays(): set<object>
      reads this, SuperZombies
    {
      set z | z in SuperZombies :: z.colliders
    }

    /** The list has `zombieNum` distinct zombies with distinct collider arrays. */
    ghost predicate Valid()
      reads this, SuperZombies
    {
      && |SuperZombies| == zombieNum
      && (forall i, j :: 0 <= i < j < |SuperZombies| ==>
            SuperZombies[i] != SuperZombies[j] && SuperZombies[i].colliders != SuperZombies[j].colliders)
    }

    constructor (outside: Unassigned)
      ensures Valid() && zombieNum == 2 && totalPlayerDamage == 0.0
      ensures forall i :: 0 <= i < |SuperZombies| ==>
        && fresh(SuperZombies[i]) && fresh(SuperZombies[i].colliders)
        && SuperZombies[i].initialPosition == SpawnPosition(i)
        && SuperZombies[i].Snapshot() == Initial(outside)
    {
      zombieNum := 2;
      totalPlayerDamage := 0.0;
      SuperZombies := [];
      new;
      var i := 0;
      while i < zombieNum
        invariant 0 <= i <= zombieNum
        invariant |SuperZombies| == i && totalPlayerDamage == 0.0
        invariant forall k :: 0 <= k < i ==>
          && fresh(SuperZombies[k]) && fresh(SuperZombies[k].colliders)
          && SuperZombies[k].initialPosition == SpawnPosition(k)
          && SuperZombies[k].Snapshot() == Initial(outside)
        invariant forall k, l :: 0 <= k < l < i ==>
          SuperZombies[k] != SuperZombies[l] && SuperZombies[k].colliders != SuperZombies[l].colliders
      {
        var zombie := new SuperZombie(SpawnPosition(i), outside);
        SuperZombies := SuperZombies + [zombie];
        i := i + 1;
      }
    }

    /** Shows or hides the collision shape of every zombie that has loaded. */
    method ToggleCollisionBoxVisibility(visible: bool)
      requires Valid()
      modifies SuperZombies
      ensures Valid() && SuperZombies == old(SuperZombies)
      ensures forall i :: 0 <= i < |SuperZombies| ==>
        && SuperZombies[i].Snapshot() == old(SuperZombies[i].Snapshot())
        && SuperZombies[i].collisionShape ==
             (if old(SuperZombies[i].SetupComplete) && old(SuperZombies[i].collisionShape).Shape?
              then Shape(visible) else old(SuperZombies[i].collisionShape))
    {
      var i := 0;
      while i < |SuperZombies|
        invariant 0 <= i <= |SuperZombies|
        invariant forall k :: 0 <= k < |SuperZombies| ==>
          SuperZombies[k].Snapshot() == old(SuperZombies[k].Snapshot())
        invariant forall k :: 0 <= k < |SuperZombies| ==>
          SuperZombies[k].colliders == old(SuperZombies[k].colliders)
        invariant forall k :: 0 <= k < i ==>
          SuperZombies[k].collisionShape ==
            (if old(SuperZombies[k].SetupComplete) && old(SuperZombies[k].collisionShape).Shape?
             then Shape(visible) else old(SuperZombies[k].collisionShape))
        invariant forall k :: i <= k < |SuperZombies| ==>
          SuperZombies[k].collisionShape == old(SuperZombies[k].collisionShape)
      {
        var zombie := SuperZombies[i];
        if zombie.SetupComplete {
          zombie.ToggleCollisionShapeVisibility(visible);
        }
        i := i + 1;
      }
    }

    /** One frame: every zombie that has loaded is updated with its own
        perception; the others are untouched and the list keeps its length. */
    method OnUpdate(deltaTime: real, ps: seq<S.Percept>)
      requires Valid() && |ps| == |SuperZombies|
      modifies SuperZombies, ColliderArrays()
      ensures Valid() && SuperZombies == old(SuperZombies)
      ensures forall i :: 0 <= i < |SuperZombies| ==>
        SuperZombies[i].Snapshot() == Stepped(old(SuperZombies[i].Snapshot()), deltaTime, ps[i])
      ensures forall i :: 0 <= i < |SuperZombies| ==>
        SuperZombies[i].collisionShape == old(SuperZombies[i].collisionShape)
    {
      var i := 0;
      while i < |SuperZombies|
        invariant 0 <= i <= |SuperZombies|
        invariant forall k :: 0 <= k < |SuperZombies| ==>
          SuperZombies[k].colliders == old(SuperZombies[k].colliders)
        invariant forall k :: 0 <= k < |SuperZombies| ==>
          SuperZombies[k].collisionShape == old(SuperZombies[k].collisionShape)
        invariant forall k :: 0 <= k < i ==>
          SuperZombies[k].Snapshot() == Stepped(old(SuperZombies[k].Snapshot()), deltaTime, ps[k])
        invariant forall k :: i <= k < |SuperZombies| ==>
          SuperZombies[k].Snapshot() == old(SuperZombies[k].Snapshot())
      {
        UpdateOne(i, deltaTime, ps[i]);
        i := i + 1;
      }
    }

    /** The loop body of OnUpdate for zombie `i`. */
    method UpdateOne(i: nat, deltaTime: real, p: S.Percept)
      requires Valid() && i < |SuperZombies|
      modifies SuperZombies[i], SuperZombies[i].colliders
      ensures SuperZombies[i].colliders == old(SuperZombies[i].colliders)
      ensures SuperZombies[i].collisionShape == old(SuperZombies[i].collisionShape)
      ensures SuperZombies[i].Snapshot() == Stepped(old(SuperZombies[i].Snapshot()), deltaTime, p)
      ensures forall k :: 0 <= k < |SuperZombies| && k != i ==>
        SuperZombies[k].Snapshot() == old(SuperZombies[k].Snapshot())
    {
      var zombie := SuperZombies[i];
      if zombie.SetupComplete {
        zombie.OnUpdate(deltaTime, p);
      }
    }
  }
}
