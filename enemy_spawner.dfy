/** The spawn-point registry (src/scenes/setup/hostiles/EnemySpawner.js): the
    positions of the map's marker objects, flattened onto the ground, and two
    ways of choosing one of them. */
module EnemySpawner {
  import opened Vectors
  import opened Wrappers

  /** k / n lies in [0, 1) and times n gives back k. */
  lemma Fraction(k: nat, n: nat)
    requires k < n
    ensures 0.0 <= k as real / n as real < 1.0
    ensures (k as real / n as real) * n as real == k as real
  {
  }

  class Spawner {
    var spawns: seq<Vec3>
    var setupComplete: bool

    /** The map load it starts finishes later, in `OnMapLoaded`. */
    constructor ()
      ensures spawns == [] && !setupComplete
    {
      spawns := [];
      setupComplete := false;
    }

    /** The load callback: the marker positions found in the map are appended
        and every spawn is put on the ground (y := 0). */
    method OnMapLoaded(found: seq<Vec3>)
      modifies this
      ensures setupComplete
      ensures |spawns| == |old(spawns)| + |found|
      ensures forall i :: 0 <= i < |spawns| ==>
        && spawns[i].x == (old(spawns) + found)[i].x
        && spawns[i].y == 0.0
        && spawns[i].z == (old(spawns) + found)[i].z
    {
      spawns := spawns + found;
      ghost var all := spawns;
      var i := 0;
      while i < |spawns|
        invariant 0 <= i <= |spawns| == |all|
        invariant forall k :: 0 <= k < i ==>
          spawns[k].x == all[k].x && spawns[k].y == 0.0 && spawns[k].z == all[k].z
        invariant forall k :: i <= k < |spawns| ==> spawns[k] == all[k]
      {
        spawns := spawns[i := spawns[i].(y := 0.0)];
        i := i + 1;
      }
      setupComplete := true;
    }

    /** The list both choices draw from: empty exactly when a random draw
        finds nothing, and holding whatever a draw returns. */
    function GetSpawns(): (s: seq<Vec3>)
      reads this
      ensures |s| == 0 <==> GetRandomSpawn(0.0).None?
      ensures forall r :: 0.0 <= r < 1.0 && GetRandomSpawn(r).Some? ==> GetRandomSpawn(r).value in s
    {
      spawns
    }

    /** A uniformly drawn spawn, the random number `r` in [0, 1) being given:
        the spawn at index floor(r * |spawns|), or nothing when there is none. */
    function GetRandomSpawn(r: real): (o: Option<Vec3>)
      reads this
      requires 0.0 <= r < 1.0
      ensures o.None? <==> |spawns| == 0
      ensures o.Some? ==> exists k :: (0 <= k < |spawns| && o.value == spawns[k]
        && k as real <= r * (|spawns| as real) < k as real + 1.0)
    {
      if |spawns| == 0 then None
      else
        var n := |spawns| as real;
        assert 0.0 <= r * n < n by {
          assert (1.0 - r) * n > 0.0;
        }
        var k := (r * n).Floor;
        assert k as real <= r * n < k as real + 1.0;
        Some(spawns[k])
    }

    /** Every spawn can be drawn: the number k / |spawns| picks spawn k. */
    lemma EverySpawnDrawable(k: nat)
      requires k < |spawns|
      ensures 0.0 <= k as real / |spawns| as real < 1.0
      ensures GetRandomSpawn(k as real / |spawns| as real) == Some(spawns[k])
    {
      var r := k as real / |spawns| as real;
      Fraction(k, |spawns|);
      assert (r * (|spawns| as real)).Floor == k;
      assert GetRandomSpawn(r) == Some(spawns[(r * (|spawns| as real)).Floor]);
    }

    /** The spawn nearest to `pos`, the earliest one on a tie, or nothing when
        there is none. Distances are compared squared, which orders them the
        same way. */
    method GetClosestSpawn(pos: Vec3) returns (o: Option<Vec3>)
      ensures o.None? <==> |spawns| == 0
      ensures o.Some? ==> exists k :: (0 <= k < |spawns| && o.value == spawns[k]
        && (forall j :: 0 <= j < |spawns| ==> Dist2(pos, spawns[k]) <= Dist2(pos, spawns[j]))
        && (forall j :: 0 <= j < k ==> Dist2(pos, spawns[j]) > Dist2(pos, spawns[k])))
    {
      if |spawns| == 0 {
        return None;
      }
      var closest := spawns[0];
      var distance := Dist2(pos, closest);
      ghost var k := 0;
      var i := 0;
      while i < |spawns|
        invariant 0 <= i <= |spawns|
        invariant 0 <= k < |spawns| && (k < i || k == 0)
        invariant closest == spawns[k] && distance == Dist2(pos, closest)
        invariant forall j :: 0 <= j < i ==> distance <= Dist2(pos, spawns[j])
        invariant forall j :: 0 <= j < k ==> Dist2(pos, spawns[j]) > distance
      {
        var spawnDistance := Dist2(pos, spawns[i]);
        if spawnDistance < distance {
          closest := spawns[i];
          distance := spawnDistance;
          k := i;
        }
        i := i + 1;
      }
      return Some(closest);
    }
  }
}
