/** The per-frame rules of the setup scene (src/scenes/setup/StartupScene.js):
    the frame-time clamp, the right-button zoom, the left-button shot, the
    gating of the enemy update on the environment, the draining of the
    player-damage accumulator and the kill counter. */
module Scenes {
  import E = Events
  import S = SuperZombieStates
  import opened SuperZombies
  import opened EnemyManagers
  import opened GameUi

  const MAX_DELTA_TIME := 0.5
  const MIN_FOV := 30.0
  const MAX_FOV := 45.0
  /** The damage the scene's shot passes to the enemy manager. */
  const SHOT_DAMAGE := 20

  /** `Math.min(deltaTime, 0.5)`. */
  function ClampDelta(deltaTime: real): (d: real)
    ensures d <= MAX_DELTA_TIME
    ensures d == deltaTime || d == MAX_DELTA_TIME
    ensures deltaTime <= MAX_DELTA_TIME ==> d == deltaTime
  {
    if deltaTime < MAX_DELTA_TIME then deltaTime else MAX_DELTA_TIME
  }

  /** One frame of zoom: one degree narrower while zooming, floored at 30,
      otherwise one degree wider, capped at 45. */
  function FovStep(fov: real, zooming: bool): real
  {
    if zooming then
      (if fov - 1.0 < MIN_FOV then MIN_FOV else fov - 1.0)
    else
      (if fov + 1.0 > MAX_FOV then MAX_FOV else fov + 1.0)
  }

  /** The zoom keeps a field of view inside [30, 45], moves it by at most one
      degree, and pulls one from outside towards the range. */
  lemma FovStaysInRange(fov: real, zooming: bool)
    ensures MIN_FOV <= fov <= MAX_FOV ==> MIN_FOV <= FovStep(fov, zooming) <= MAX_FOV
    ensures MIN_FOV <= fov <= MAX_FOV ==> -1.0 <= FovStep(fov, zooming) - fov <= 1.0
    ensures zooming ==> FovStep(fov, zooming) >= MIN_FOV
    ensures !zooming ==> FovStep(fov, zooming) <= MAX_FOV
  {
  }

  /** Held zoom reaches the floor and stays there. */
  lemma {:induction false} ZoomSettles(fov: real, n: nat)
    requires MIN_FOV <= fov <= MAX_FOV && n >= 15
    ensures Zoomed(fov, n, true) == MIN_FOV
  {
    ZoomBound(fov, n);
  }

  /** The field of view after `n` frames with the zoom held (or not). */
  function Zoomed(fov: real, n: nat, zooming: bool): real
  {
    if n == 0 then fov else FovStep(Zoomed(fov, n - 1, zooming), zooming)
  }

  lemma {:induction false} ZoomBound(fov: real, n: nat)
    requires MIN_FOV <= fov <= MAX_FOV
    ensures MIN_FOV <= Zoomed(fov, n, true) <= MAX_FOV
    ensures Zoomed(fov, n, true) == (if fov - n as real < MIN_FOV then MIN_FOV else fov - n as real)
  {
    if n > 0 {
      ZoomBound(fov, n - 1);
    }
  }

  class StartupScene {
    /** The main camera's field of view. */
    var fov: real
    const events: E.EventManager
    const enemyManager: EnemyManager
    const gameUI: GameUI

    ghost predicate Valid()
      reads this, events, enemyManager, enemyManager.SuperZombies
    {
      events.Valid() && enemyManager.Valid()
    }

    /** The scene's managers that this model covers: the shared event
        manager, a new enemy manager and a new interface. */
    constructor (fov: real, events: E.EventManager, outside: Unassigned, killCounterText: string, gameOverShown: bool)
      requires events.Valid()
      ensures Valid() && this.fov == fov && this.events == events
      ensures fresh(enemyManager) && enemyManager.totalPlayerDamage == 0.0
      ensures forall i :: 0 <= i < |enemyManager.SuperZombies| ==>
        enemyManager.SuperZombies[i].Snapshot() == Initial(outside)
      ensures fresh(gameUI) && gameUI.Valid() && gameUI.kills == 0 && gameUI.timerActive
    {
      this.fov := fov;
      this.events := events;
      gameUI := new GameUI(killCounterText, gameOverShown);
      enemyManager := new EnemyManager(outside);
    }

    /** One frame. `environmentSetup` is the environment manager's ready flag
        and `ps` what each zombie senses; `fired` says whether the frame's
        left-button press made the shot that checks bullets against the
        zombies with damage SHOT_DAMAGE. */
    method OnUpdate(deltaTime: real, environmentSetup: bool, ps: seq<S.Percept>) returns (fired: bool)
      requires Valid() && |ps| == |enemyManager.SuperZombies|
      modifies this`fov, events.mouseButtons, enemyManager.SuperZombies, enemyManager.ColliderArrays()
      ensures Valid() && enemyManager.SuperZombies == old(enemyManager.SuperZombies)
      ensures fov == FovStep(old(fov), E.MouseHeld(old(events.Contents()), E.MOUSE_RIGHT))
      ensures (fired, events.Contents()) == E.MousePressed(old(events.Contents()), E.MOUSE_LEFT)
      ensures forall i :: 0 <= i < |enemyManager.SuperZombies| ==>
        enemyManager.SuperZombies[i].Snapshot() ==
          if environmentSetup
          then Stepped(old(enemyManager.SuperZombies[i].Snapshot()), ClampDelta(deltaTime), ps[i])
          else old(enemyManager.SuperZombies[i].Snapshot())
    {
      var dt := ClampDelta(deltaTime);
      var zooming := events.IsMouseButtonHeld(E.MOUSE_RIGHT);
      Zoom(zooming);
      fired := events.IsMouseButtonPressed(E.MOUSE_LEFT);
      if !environmentSetup {
        return;
      }
      enemyManager.OnUpdate(dt, ps);
    }

    method Zoom(zooming: bool)
      modifies this`fov
      ensures fov == FovStep(old(fov), zooming)
    {
      if zooming {
        fov := fov - 1.0;
        if fov < MIN_FOV {
          fov := MIN_FOV;
        }
      } else {
        fov := fov + 1.0;
        if fov > MAX_FOV {
          fov := MAX_FOV;
        }
      }
    }

    /** Before rendering, accumulated damage to the player is consumed:
        `hurt` says whether the shake and damage effects start. */
    method OnPreRender() returns (hurt: bool)
      modifies enemyManager`totalPlayerDamage
      ensures hurt <==> old(enemyManager.totalPlayerDamage) > 0.0
      ensures enemyManager.totalPlayerDamage <= 0.0
      ensures hurt ==> enemyManager.totalPlayerDamage == 0.0
      ensures !hurt ==> enemyManager.totalPlayerDamage == old(enemyManager.totalPlayerDamage)
    {
      hurt := enemyManager.totalPlayerDamage > 0.0;
      if hurt {
        enemyManager.totalPlayerDamage := 0.0;
      }
    }

    method OnZombieKilled()
      modifies gameUI`kills, gameUI`killCounterText
      ensures gameUI.kills == old(gameUI.kills) + 1
      ensures gameUI.killCounterText == KILLS_PREFIX + NatToString(gameUI.kills)
    {
      gameUI.IncrementKills();
    }
  }
}
