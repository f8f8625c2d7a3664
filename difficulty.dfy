/** The difficulty presets (src/scenes/setup/hostiles/Difficulty.js): how many
    zombies a round has and how tough, fast and harmful each one is. */
module Difficulty {
  datatype Preset = Preset(zombieNum: nat, zombieHealth: real, zombieSpeed: real, zombieAttackDamage: nat)

  const Easy := Preset(3, 50.0, 1.0, 10)
  const Normal := Preset(5, 100.0, 1.6, 15)
  const Hard := Preset(7, 200.0, 2.0, 20)
  const Impossible := Preset(12, 500.0, 3.2, 25)

  /** The presets from easiest to hardest. */
  const Levels: seq<string> := ["EASY", "NORMAL", "HARD", "IMPOSSIBLE"]

  /** The exported table. */
  function Presets(): (m: map<string, Preset>)
    ensures m.Keys == {"EASY", "NORMAL", "HARD", "IMPOSSIBLE"}
    ensures m["EASY"] == Easy && m["NORMAL"] == Normal
    ensures m["HARD"] == Hard && m["IMPOSSIBLE"] == Impossible
  {
    map["EASY" := Easy, "NORMAL" := Normal, "HARD" := Hard, "IMPOSSIBLE" := Impossible]
  }

  /** `b` is harder than `a` in every respect. */
  predicate Harder(a: Preset, b: Preset)
  {
    && a.zombieNum < b.zombieNum
    && a.zombieHealth < b.zombieHealth
    && a.zombieSpeed < b.zombieSpeed
    && a.zombieAttackDamage < b.zombieAttackDamage
  }

  /** Every level of the table is harder than every level before it. */
  lemma LevelsIncrease(i: nat, j: nat)
    requires i < j < |Levels|
    ensures Levels[i] in Presets() && Levels[j] in Presets()
    ensures Harder(Presets()[Levels[i]], Presets()[Levels[j]])
  {
  }
}
