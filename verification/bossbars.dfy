/**
  The per-player boss-bar registry: one bar and one "last shown" timestamp per
  player, created on join, filled in by experience and level events, hidden
  by a periodic sweep once stale, and dropped on leave.
*/
module BossBars {
  import opened Settings
  import opened Progress
  import opened LevelUp

  /** A player's UUID, a 128-bit value. */
  newtype PlayerId = n: int | 0 <= n < 0x1_0000_0000_0000_0000_0000_0000_0000_0000

  /** What a boss bar displays: the skill's name, the progress fraction, and whether it is shown at all. */
  datatype Bar = Bar(name: string, percent: real, visible: bool)

  /**
    The bar a joining player gets: empty name, hidden. The join handler sets
    no percent, so the percent is the bar builder's default, taken as 0; no
    event reads it before an update overwrites it.
  */
  const FreshBar := Bar("", 0.0, false)

  const NanosPerSecond: int := 1_000_000_000

  /** Timestamps are instants in nanoseconds; a bar goes stale ten seconds after its last update. */
  const StaleAfter: int := 10 * NanosPerSecond

  /**
    The sweep's test: the duration from `stamp` to `now` compares greater than
    ten seconds. A duration is held as whole seconds, rounded down, and a
    nanosecond part in [0, 10^9); durations compare by seconds first, then by
    nanoseconds. The test is exactly "strictly more than ten seconds".
  */
  function IsStale(stamp: int, now: int): (stale: bool)
    ensures stale <==> now - stamp > StaleAfter
  {
    var seconds, nanos := (now - stamp) / NanosPerSecond, (now - stamp) % NanosPerSecond;
    seconds > 10 || (seconds == 10 && nanos > 0)
  }

  /** The skill service's answer for the skill id an event carries. */
  datatype SkillLookup =
    | NoSkillId            // the event's context carries no skill id
    | UnknownSkill         // the id is not a skill the service knows
    | Skill(name: string)  // the skill's display name

  /** The account's standing in the event's skill before the event: level and experience. */
  datatype Standing = Standing(level: int, experience: int)

  /** The exceptions a handler can end with. */
  datatype Fault =
    | SkillNotFound     // an empty optional from the skill lookup was unwrapped
    | NoBarForPlayer    // the player has no bar, so the bar handle is null
    | MapsNotAllocated  // the bar feature is off, so the maps were never created

  datatype Outcome = Completed | Threw(fault: Fault)

  /** The bars after one sweep at `now`: every bar whose timestamp is stale is hidden. */
  function Swept(bars: map<PlayerId, Bar>, stamps: map<PlayerId, int>, now: int): (r: map<PlayerId, Bar>)
    ensures r.Keys == bars.Keys
    ensures forall k :: k in r ==> r[k].name == bars[k].name && r[k].percent == bars[k].percent
    ensures forall k :: k in r ==> (r[k].visible <==> bars[k].visible && !(k in stamps && IsStale(stamps[k], now)))
  {
    map k | k in bars :: if k in stamps && IsStale(stamps[k], now) then bars[k].(visible := false) else bars[k]
  }

  /** A second sweep at the same instant changes nothing. */
  lemma SweptIdempotent(bars: map<PlayerId, Bar>, stamps: map<PlayerId, int>, now: int)
    ensures Swept(Swept(bars, stamps, now), stamps, now) == Swept(bars, stamps, now)
  {
  }

  /** A later sweep hides everything an earlier one hid, so the earlier one can be skipped. */
  lemma SweptLaterSubsumes(bars: map<PlayerId, Bar>, stamps: map<PlayerId, int>, earlier: int, later: int)
    requires earlier <= later
    ensures Swept(Swept(bars, stamps, earlier), stamps, later) == Swept(bars, stamps, later)
  {
  }

  /** A bar shown at `shownAt` stays shown by every sweep within the following ten seconds. */
  lemma ShownBarSurvivesSweep(bars: map<PlayerId, Bar>, stamps: map<PlayerId, int>, player: PlayerId, shownAt: int, now: int)
    requires player in bars && bars[player].visible
    requires player in stamps && stamps[player] == shownAt
    requires now - shownAt <= StaleAfter
    ensures player in Swept(bars, stamps, now) && Swept(bars, stamps, now)[player] == bars[player]
  {
  }

  class Registry {
    /** The settings read at initialisation. */
    const config: Config
    /** Each registered player's bar. */
    var bars: map<PlayerId, Bar>
    /** When each player's bar was last shown by an event. */
    var stamps: map<PlayerId, int>

    /**
      Every timestamped player has a bar (the sweep looks each one up), and
      with the bar feature off nothing is ever registered.
    */
    ghost predicate Valid()
      reads this
    {
      && stamps.Keys <= bars.Keys
      && (!config.bossBarEnabled ==> bars == map[] && stamps == map[])
    }

    /** The state after game initialisation: both maps empty. */
    constructor (config: Config)
      ensures Valid()
      ensures this.config == config
      ensures bars == map[] && stamps == map[]
    {
      this.config := config;
      bars := map[];
      stamps := map[];
    }

    /** A player joins: with the feature on, a fresh hidden bar replaces any bar the player had. */
    method Join(player: PlayerId)
      requires Valid()
      modifies this
      ensures Valid()
      ensures config.bossBarEnabled ==> bars == old(bars)[player := FreshBar]
      ensures !config.bossBarEnabled ==> bars == old(bars)
      ensures stamps == old(stamps)
    {
      if config.bossBarEnabled {
        bars := bars[player := FreshBar];
      }
    }

    /**
      A player leaves: their bar and timestamp are dropped; a player with no
      entry changes nothing. With the feature off the maps do not exist and the
      handler throws.
    */
    method Leave(player: PlayerId) returns (outcome: Outcome)
      requires Valid()
      modifies this
      ensures Valid()
      ensures config.bossBarEnabled ==> outcome == Completed
      ensures !config.bossBarEnabled ==> outcome == Threw(MapsNotAllocated)
      ensures bars == old(bars) - {player} && stamps == old(stamps) - {player}
    {
      if !config.bossBarEnabled {
        return Threw(MapsNotAllocated);
      }
      bars := bars - {player};
      stamps := stamps - {player};
      outcome := Completed;
    }

    /**
      An experience change of `delta` in a skill where the account stands at
      `account`: with the feature on, the player's bar shows the skill's name and
      the progress towards the requirement of the account's level before the
      event, and the timestamp becomes `now`.
    */
    method OnExperience(player: PlayerId, account: Option<Standing>, skill: SkillLookup, delta: int,
                        levelExperience: int -> int, now: int) returns (outcome: Outcome)
      requires Valid()
      requires config.bossBarEnabled && account.Some? && skill.Skill? ==> levelExperience(account.value.level) != 0
      modifies this
      ensures Valid()
      // ignored: feature off, or the event's context lacks the account or the skill id
      ensures !config.bossBarEnabled || account.None? || skill.NoSkillId? ==>
                outcome == Completed && bars == old(bars) && stamps == old(stamps)
      ensures config.bossBarEnabled && account.Some? && skill.UnknownSkill? ==>
                outcome == Threw(SkillNotFound) && bars == old(bars) && stamps == old(stamps)
      ensures config.bossBarEnabled && account.Some? && skill.Skill? && player !in old(bars) ==>
                outcome == Threw(NoBarForPlayer) && bars == old(bars) && stamps == old(stamps)
      ensures config.bossBarEnabled && account.Some? && skill.Skill? && player in old(bars) ==>
                && outcome == Completed
                && bars == old(bars)[player := Bar(skill.name, Percent(account.value.experience + delta,
                                                                       levelExperience(account.value.level)), true)]
                && stamps == old(stamps)[player := now]
    {
      outcome := Completed;
      if config.bossBarEnabled && account.Some? && !skill.NoSkillId? {
        if skill.UnknownSkill? {
          return Threw(SkillNotFound);
        }
        var standing := account.value;
        var percent := Percent(standing.experience + delta, levelExperience(standing.level));
        if player !in bars {
          return Threw(NoBarForPlayer);
        }
        bars := bars[player := Bar(skill.name, percent, true)];
        stamps := stamps[player := now];
      }
    }

    /**
      A level change to `level` with `remaining` experience left over: with the
      feature on, the player's bar shows the skill's name and the progress
      towards the requirement of the new level, and the timestamp becomes `now`;
      a level-up then asks for the sound and firework its own settings allow,
      whether or not the bar feature is on.
    */
    method OnLevel(player: PlayerId, skill: SkillLookup, direction: Direction, level: int, remaining: int,
                   levelExperience: int -> int, now: int) returns (outcome: Outcome, effects: Effects)
      requires Valid()
      requires config.bossBarEnabled && skill.Skill? ==> levelExperience(level) != 0
      modifies this
      ensures Valid()
      ensures skill.NoSkillId? ==>
                outcome == Completed && effects == NoEffects && bars == old(bars) && stamps == old(stamps)
      ensures skill.UnknownSkill? ==>
                outcome == Threw(SkillNotFound) && effects == NoEffects && bars == old(bars) && stamps == old(stamps)
      ensures skill.Skill? && config.bossBarEnabled && player !in old(bars) ==>
                outcome == Threw(NoBarForPlayer) && effects == NoEffects && bars == old(bars) && stamps == old(stamps)
      ensures skill.Skill? && config.bossBarEnabled && player in old(bars) ==>
                && bars == old(bars)[player := Bar(skill.name, Percent(remaining, levelExperience(level)), true)]
                && stamps == old(stamps)[player := now]
      ensures skill.Skill? && !config.bossBarEnabled ==> bars == old(bars) && stamps == old(stamps)
      ensures skill.Skill? && (!config.bossBarEnabled || player in old(bars)) ==>
                && outcome == Completed
                && effects == LevelUpEffects(config.levelUpSoundEnabled, config.fireworkInterval, direction, level)
    {
      if skill.NoSkillId? {
        return Completed, NoEffects;
      }
      if skill.UnknownSkill? {
        return Threw(SkillNotFound), NoEffects;
      }
      if config.bossBarEnabled {
        var percent := Percent(remaining, levelExperience(level));
        if player !in bars {
          return Threw(NoBarForPlayer), NoEffects;
        }
        bars := bars[player := Bar(skill.name, percent, true)];
        stamps := stamps[player := now];
      }
      outcome := Completed;
      effects := LevelUpEffects(config.levelUpSoundEnabled, config.fireworkInterval, direction, level);
    }

    /**
      One run of the periodic clear task: every bar whose timestamp is stale at
      `now` is hidden. Nothing is removed, and only visibility changes. The task
      is scheduled only when the bar feature is on.
    */
    method Sweep(now: int)
      requires Valid()
      requires config.bossBarEnabled
      modifies this
      ensures Valid()
      ensures bars == Swept(old(bars), old(stamps), now)
      ensures stamps == old(stamps)
    {
      var todo := stamps.Keys;
      while todo != {}
        invariant todo <= stamps.Keys
        invariant stamps == old(stamps)
        invariant bars.Keys == old(bars).Keys
        invariant forall k :: k in bars ==>
                    bars[k] == if k in stamps && k !in todo && IsStale(stamps[k], now)
                               then old(bars)[k].(visible := false) else old(bars)[k]
        decreases todo
      {
        var k :| k in todo;
        if IsStale(stamps[k], now) {
          bars := bars[k := bars[k].(visible := false)];
        }
        todo := todo - {k};
      }
    }
  }
}
