/** The older enemy manager (src/hostiles/EnemyManager.js) and the zombie it
    holds (src/hostiles/SuperZombie.js): twenty zombies, each pinned to its
    lane once its model has loaded. */
module LegacyEnemies {
  import opened Vectors
  import opened Wrappers
  import EnemyManagers

  /** Only the parts of the older zombie the manager touches: the load flag,
      the running flag and its mesh's position (None before the model loads). */
  class LegacySuperZombie {
    var SetupComplete: bool
    var isRunning: bool
    var mesh: Option<Vec3>

    /** A zombie that is loaded or running has a mesh. */
    ghost predicate Ready()
      reads this
    {
      (SetupComplete || isRunning) ==> mesh.Some?
    }

    constructor ()
      ensures Ready() && !SetupComplete && !isRunning && mesh == None
    {
      SetupComplete := false;
      isRunning := false;
      mesh := None;
    }

    /** The model-load callback, with the loaded scene's position. */
    method OnModelLoaded(position: Vec3)
      modifies this
      ensures Ready() && SetupComplete && isRunning && mesh == Some(position)
    {
      mesh := Some(position);
      isRunning := false; // ResetAllActions

      SetupComplete := true;
      isRunning := true;
    }

    /** A running zombie steps 0.05 forward along z. */
    method OnUpdate(deltaTime: real)
      requires Ready()
      modifies this`mesh
      ensures Ready()
      ensures mesh == if isRunning then Some(old(mesh).value.(z := old(mesh).value.z + 0.05)) else old(mesh)
    {
      if isRunning {
        var p := mesh.value;
        mesh := Some(p.(z := p.z + 0.05));
      }
    }
  }

  class LegacyEnemyManager {
    const zombieNum: nat
    var SuperZombies: seq<LegacySuperZombie>

    ghost function Zombies(): set<object>
      reads this
    {
      set z | z in SuperZombies
    }

    ghost predicate Valid()
      reads this, SuperZombies
    {
      && |SuperZombies| == zombieNum
      && (forall i, j :: 0 <= i < j < |SuperZombies| ==> SuperZombies[i] != SuperZombies[j])
      && (forall i :: 0 <= i < |SuperZombies| ==> SuperZombies[i].Ready())
    }

    constructor ()
      ensures Valid() && zombieNum == 20
      ensures forall i :: 0 <= i < |SuperZombies| ==>
        fresh(SuperZombies[i]) && !SuperZombies[i].SetupComplete && SuperZombies[i].mesh == None
    {
      zombieNum := 20;
      SuperZombies := [];
      new;
      var i := 0;
      while i < zombieNum
        invariant 0 <= i <= zombieNum && |SuperZombies| == i
        invariant forall k :: 0 <= k < i ==>
          fresh(SuperZombies[k]) && !SuperZombies[k].SetupComplete && !SuperZombies[k].isRunning
          && SuperZombies[k].mesh == None
        invariant forall k, l :: 0 <= k < l < i ==> SuperZombies[k] != SuperZombies[l]
      {
        var zombie := new LegacySuperZombie();
        SuperZombies := SuperZombies + [zombie];
        i := i + 1;
      }
    }

    /** Every loaded zombie is updated and then put at (2i, 0, 5), where i
        counts every zombie in the list, loaded or not; the others are
        untouched and the list keeps its length. */
    method OnUpdate(deltaTime: real)
      requires Valid()
      modifies Zombies()
      ensures Valid() && SuperZombies == old(SuperZombies)
      ensures forall i :: 0 <= i < |SuperZombies| ==>
        && SuperZombies[i].SetupComplete == old(SuperZombies[i].SetupComplete)
        && SuperZombies[i].isRunning == old(SuperZombies[i].isRunning)
        && SuperZombies[i].mesh ==
             if old(SuperZombies[i].SetupComplete) then Some(EnemyManagers.SpawnPosition(i))
             else old(SuperZombies[i].mesh)
    {
      var i := 0;
      while i < |SuperZombies|
        invariant 0 <= i <= |SuperZombies|
        invariant forall k :: 0 <= k < |SuperZombies| ==>
          && SuperZombies[k].Ready()
          && SuperZombies[k].SetupComplete == old(SuperZombies[k].SetupComplete)
          && SuperZombies[k].isRunning == old(SuperZombies[k].isRunning)
        invariant forall k :: 0 <= k < i ==>
          SuperZombies[k].mesh ==
            if old(SuperZombies[k].SetupComplete) then Some(EnemyManagers.SpawnPosition(k))
            else old(SuperZombies[k].mesh)
        invariant forall k :: i <= k < |SuperZombies| ==> SuperZombies[k].mesh == old(SuperZombies[k].mesh)
      {
        var zombie := SuperZombies[i];
        if zombie.SetupComplete {
          zombie.OnUpdate(deltaTime);
          SuperZombies[i].mesh := Some(EnemyManagers.SpawnPosition(i));
        }
        i := i + 1;
      }
    }
  }
}
