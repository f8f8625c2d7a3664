/** The base zombie of the setup scene (src/scenes/setup/hostiles/ZombieBase.js):
    two initial values and two hooks that do nothing. */
module ZombieBase {

  datatype BaseZombie = BaseZombie(health: real, speed: real)

  /** `new Zombie()`. */
  function NewZombie(): (b: BaseZombie)
    ensures b.health == 100.0
    ensures b.speed == 1.0
  {
    BaseZombie(100.0, 1.0)
  }

  /** The base update hook: the zombie is left as it was, whatever the time step. */
  function OnUpdate(b: BaseZombie, deltaTime: real): (r: BaseZombie)
    ensures r == b
  {
    b
  }

  /** The base animation reset hook: the zombie is left as it was. */
  function ResetAllActions(b: BaseZombie): (r: BaseZombie)
    ensures r == b
  {
    b
  }
}
