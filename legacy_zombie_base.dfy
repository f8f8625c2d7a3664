/** The older zombie (src/hostiles/ZombieBase.js): a seven-state machine
    driven by an aggro flag and an attack-range test. Its states call the
    state machine's change with a state's code; the model reads that as a
    change to the state registered under the code: the old state's `exit`
    (logging only) and the new state's `enter`. */
module LegacyZombies {
  import opened Wrappers

  datatype LState = Idle | Walking | Aggravated | Attack | Injured | Startled | Dead

  /** IDLE..DEAD. */
  function Code(s: LState): (c: int)
    ensures 0 <= c <= 6
  {
    match s
    case Idle => 0
    case Walking => 1
    case Aggravated => 2
    case Attack => 3
    case Injured => 4
    case Startled => 5
    case Dead => 6
  }

  /** `current` is None until something changes the machine's state; the
      constructor never does. `dead` is unset (false) until Dead is entered. */
  datatype LZombie = LZombie(current: Option<LState>, health: int, isAggroed: bool, dead: bool)

  function NewZombie(): (z: LZombie)
    ensures z.current == None && z.health == 100 && !z.isAggroed && !z.dead
  {
    LZombie(None, 100, false, false)
  }

  function Enter(z: LZombie, s: LState): LZombie
  {
    match s
    case Injured => z.(health := z.health - 10)
    case Dead => z.(dead := true)
    case _ => z
  }

  function Changed(z: LZombie, s: LState): (r: LZombie)
    ensures r.current == Some(s) && r.isAggroed == z.isAggroed
  {
    Enter(z.(current := Some(s)), s)
  }

  /** `stateMachine.update()`: the current state's `execute`; `canAttack` is
      the zombie's attack-range test. */
  function Execute(z: LZombie, canAttack: bool): LZombie
  {
    match z.current
    case None => z
    case Some(s) =>
      match s
      case Idle => if z.isAggroed then Changed(z, Aggravated) else z
      case Walking => if z.isAggroed then Changed(z, Aggravated) else z
      case Aggravated => if canAttack then Changed(z, Attack) else z
      case Attack => if !canAttack then Changed(z, Walking) else z
      case Injured => if z.health <= 0 then Changed(z, Dead) else z
      case Startled => Changed(z, Walking)
      case Dead => z
  }

  /** Idle and Walking leave exactly when aggroed, and only for Aggravated. */
  lemma AggroRule(z: LZombie, canAttack: bool)
    requires z.current == Some(Idle) || z.current == Some(Walking)
    ensures Execute(z, canAttack).current != z.current <==> z.isAggroed
    ensures z.isAggroed ==> Execute(z, canAttack) == z.(current := Some(Aggravated))
  {
  }

  /** Aggravated attacks when in range; Attack walks when out of range. */
  lemma AttackRule(z: LZombie, canAttack: bool)
    ensures z.current == Some(Aggravated) ==>
      Execute(z, canAttack) == (if canAttack then z.(current := Some(Attack)) else z)
    ensures z.current == Some(Attack) ==>
      Execute(z, canAttack) == (if canAttack then z else z.(current := Some(Walking)))
  {
  }

  lemma CodesDistinct(s: LState, t: LState)
    ensures Code(s) == Code(t) <==> s == t
  {
  }

  /** Entering Injured costs exactly 10 health. */
  lemma InjuryCosts10(z: LZombie)
    ensures Changed(z, Injured).health == z.health - 10
    ensures Changed(z, Injured).dead == z.dead
  {
  }

  /** Injured dies at health 0 or below: the test is not strict, unlike the
      setup zombie's. */
  lemma InjuredDiesAtZero(z: LZombie, canAttack: bool)
    requires z.current == Some(Injured)
    ensures Execute(z, canAttack).current == Some(Dead) <==> z.health <= 0
    ensures z.health <= 0 ==> Execute(z, canAttack).dead
  {
  }

  /** Startled always walks on. */
  lemma StartledWalks(z: LZombie, canAttack: bool)
    requires z.current == Some(Startled)
    ensures Execute(z, canAttack) == z.(current := Some(Walking))
  {
  }

  /** No `execute` enters Idle, Injured or Startled: those are entered only
      from outside the machine. */
  lemma TargetsOfExecute(z: LZombie, canAttack: bool)
    ensures var r := Execute(z, canAttack);
      r.current != z.current ==> r.current.Some? && r.current.value in {Walking, Aggravated, Attack, Dead}
  {
  }

  /** The state after a run of updates with the given attack-range answers. */
  function Run(z: LZombie, cs: seq<bool>): LZombie
    decreases |cs|
  {
    if cs == [] then z else Run(Execute(z, cs[0]), cs[1..])
  }

  /** Dead is terminal and keeps `dead`; an unstarted machine stays as it is;
      health never rises. */
  lemma {:induction false} RunFacts(z: LZombie, cs: seq<bool>)
    ensures z.current == Some(Dead) ==> Run(z, cs) == z
    ensures z.current == None ==> Run(z, cs) == z
    ensures Run(z, cs).health <= z.health
    ensures z.dead ==> Run(z, cs).dead
    ensures Run(z, cs).isAggroed == z.isAggroed
    decreases |cs|
  {
    if cs != [] {
      RunFacts(Execute(z, cs[0]), cs[1..]);
    }
  }

  class LegacyZombie {
    var current: Option<LState>
    var health: int
    var isAggroed: bool
    var dead: bool

    function Snapshot(): LZombie
      reads this
    {
      LZombie(current, health, isAggroed, dead)
    }

    constructor ()
      ensures Snapshot() == NewZombie()
    {
      current := None;
      health := 100;
      isAggroed := false;
      dead := false;
    }

    method Change(s: LState)
      modifies this`current, this`health, this`dead
      ensures Snapshot() == Changed(old(Snapshot()), s)
    {
      current := Some(s);
      if s == Injured {
        health := health - 10;
      } else if s == Dead {
        dead := true;
      }
    }

    method OnUpdate(canAttack: bool)
      modifies this`current, this`health, this`dead
      ensures Snapshot() == Execute(old(Snapshot()), canAttack)
    {
      if current.None? {
        return;
      }
      match current.value
      case Idle =>
        if isAggroed {
          Change(Aggravated);
        }
      case Walking =>
        if isAggroed {
          Change(Aggravated);
        }
      case Aggravated =>
        if canAttack {
          Change(Attack);
        }
      case Attack =>
        if !canAttack {
          Change(Walking);
        }
      case Injured =>
        if health <= 0 {
          Change(Dead);
        }
      case Startled =>
        Change(Walking);
      case Dead =>
    }
  }
}
