/**
  Clients of the registry that follow a player through its lifecycle. Each
  assertion is proved from the contracts of the registry's methods alone.
*/
module Scenarios {
  import opened Settings
  import opened LevelUp
  import opened BossBars

  /** Requirements of the levels the scenarios use: 100 experience, 120 at level 5. */
  function Requirement(level: int): int
  {
    if level == 5 then 120 else 100
  }

  /** Join, then an experience gain of 10 from 40 towards 100: the bar shows one half. */
  method JoinThenExperience(p: PlayerId, q: PlayerId)
    requires p != q
  {
    var r := new Registry(Defaults);
    r.Join(p);
    r.Join(q);
    assert r.bars[p] == FreshBar && r.stamps == map[];
    var outcome := r.OnExperience(p, Some(Standing(4, 40)), Skill("Mining"), 10, Requirement, 0);
    assert outcome == Completed;
    assert r.bars[p] == Bar("Mining", 0.5, true) && r.stamps[p] == 0;
    assert r.bars[q] == FreshBar && q !in r.stamps;
  }

  /** Level-ups to 5 and 10 both sound; only 10 fires with the default interval; a level-down does neither. */
  method LevelUps(p: PlayerId)
  {
    var r := new Registry(Defaults);
    r.Join(p);
    var outcome, effects := r.OnLevel(p, Skill("Mining"), Up, 5, 0, Requirement, 1);
    assert r.bars[p] == Bar("Mining", 0.0, true);
    assert effects == Effects(true, false);
    outcome, effects := r.OnLevel(p, Skill("Mining"), Up, 10, 0, Requirement, 2);
    assert effects == Effects(true, true);
    outcome, effects := r.OnLevel(p, Skill("Mining"), Down, 10, 0, Requirement, 2);
    assert effects == NoEffects;
  }

  /** A shown bar survives sweeps for ten seconds, is hidden after that, and goes on leave. */
  method SweepThenLeave(p: PlayerId)
  {
    var r := new Registry(Defaults);
    r.Join(p);
    var outcome := r.OnExperience(p, Some(Standing(4, 40)), Skill("Mining"), 10, Requirement, 2);
    r.Sweep(2 + StaleAfter);
    assert r.bars[p].visible;
    r.Sweep(3 + StaleAfter);
    assert !r.bars[p].visible && r.bars[p].percent == 0.5 && r.stamps[p] == 2;
    outcome := r.Leave(p);
    assert p !in r.bars && p !in r.stamps;
    outcome := r.Leave(p);
    assert outcome == Completed && r.bars == map[];
  }

  /** With bars turned off nothing is registered, yet a level-up still sounds and fires. */
  method BarsDisabled(p: PlayerId)
  {
    var r := new Registry(Config(false, true, 5));
    r.Join(p);
    assert r.bars == map[];
    var outcome := r.OnExperience(p, Some(Standing(1, 0)), Skill("Mining"), 10, Requirement, 0);
    assert r.bars == map[] && r.stamps == map[];
    var effects;
    outcome, effects := r.OnLevel(p, Skill("Mining"), Up, 15, 0, Requirement, 0);
    assert outcome == Completed && effects == Effects(true, true);
    assert r.bars == map[];
    outcome := r.Leave(p);
    assert outcome == Threw(MapsNotAllocated);
  }

  /** A level event for a player without a bar throws before any effect is asked for. */
  method LevelUpWithoutBar(p: PlayerId)
  {
    var r := new Registry(Defaults);
    var outcome, effects := r.OnLevel(p, Skill("Mining"), Up, 10, 0, Requirement, 0);
    assert outcome == Threw(NoBarForPlayer) && effects == NoEffects;
  }
}
