/** Body-part hit volumes attached to a zombie's skeleton
    (src/scenes/setup/hostiles/ZombieCollider.js). Only the fields the damage
    accounting reads are kept; geometry, material and transform are left out. */
module ZombieColliders {

  /** Part tags. */
  const HEAD: int := 0
  const HAND: int := 1
  const TORSO: int := 2
  const LEFTLEGDOWN: int := 3
  const RIGHTLEGDOWN: int := 4
  const LEFTLEGUP: int := 5
  const RIGHTLEGUP: int := 6

  function PartTags(): (tags: seq<int>)
    ensures |tags| == 7
    ensures forall i, j :: 0 <= i < j < |tags| ==> tags[i] != tags[j]
    ensures forall i :: 0 <= i < |tags| ==> tags[i] == i
  {
    [HEAD, HAND, TORSO, LEFTLEGDOWN, RIGHTLEGDOWN, LEFTLEGUP, RIGHTLEGUP]
  }

  /** A collider record. `kind` is the source's `type` field: any number may be
      stored there, not only one of the seven tags. */
  datatype Collider = Collider(kind: int, isCollider: bool, bulletHit: bool, bulletDamage: real)

  /** `new Collider(geometry, material, type)`. */
  function NewCollider(kind: int): (c: Collider)
    ensures c.kind == kind
    ensures c.isCollider
    ensures !c.bulletHit && c.bulletDamage == 0.0
  {
    Collider(kind, true, false, 0.0)
  }

  predicate IsUpperLeg(kind: int) { kind == LEFTLEGUP || kind == RIGHTLEGUP }
  predicate IsLowerLeg(kind: int) { kind == LEFTLEGDOWN || kind == RIGHTLEGDOWN }

  /** The tags whose case in the update pass reads the pending hit. */
  predicate TakesDamage(kind: int) {
    kind == HEAD || kind == TORSO || IsUpperLeg(kind) || IsLowerLeg(kind)
  }

  lemma OnlyHandAmongTagsIgnoresHits(kind: int)
    requires 0 <= kind < 7
    ensures !TakesDamage(kind) <==> kind == HAND
  {
  }
}
