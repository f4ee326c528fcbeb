# mcSkills-LevelEffects: the boss-bar registry in Dafny

McSkills-LevelEffects is a Sponge server plugin that reacts to the McSkills
experience service. When a player gains experience or changes level in a
skill, it shows a boss bar with the skill's name and progress. A level-up
plays a sound. On every `fireworkInterval`-th level it launches a firework. A
task that runs every five seconds hides each bar that no event has refreshed
for more than ten seconds.

This project models the plugin's state and decisions:

- `Progress` (progress.dfy): the progress fraction. It is the experience
  divided by the level's requirement and capped at one from above only.
- `LevelUp` (levelup.dfy): the level-up sound and firework decisions. It
  includes Java's truncating `%` and a proof that it agrees with Dafny's `%`
  on divisibility.
- `Settings` (settings.dfy): the three settings. The file is loaded once per
  key, and absent keys fall back to their defaults.
- `BossBars` (bossbars.dfy): the class `Registry`. Its two maps (bars and
  "last shown" timestamps) are updated in place by join, leave, both event
  handlers and the sweep. Its invariant is that every timestamped player has
  a bar. This invariant is what makes the sweep's bar lookup safe.
- `Scenarios` (scenarios.dfy): client methods that follow players through
  join, updates, sweeps and leave. They are proved from the registry's
  contracts alone.

The source throws in some places:

- `Optional.get()` on an unknown skill.
- A null bar for a player who has none.
- A null map when the bar feature is off.

In each case the exception is raised before anything is changed. The model
returns `Threw(fault)` with the state unchanged, and (for a level event) no
effects. Services the handlers call are plain parameters:

- the skill lookup;
- the account's level and experience;
- `getLevelExperience`, as a function `int -> int`;
- the current instant, in nanoseconds.

Behaviour worth knowing:

- The progress fraction is capped at one from above only. A negative
  experience total gives a negative fraction; nothing clamps it at zero.
- If a configuration load throws an `IOException`, every setting not yet read
  keeps its Java field default (false, false, 0), not the fallback values the
  getters are given (true, true, 10). The file is loaded three times, once per
  key. A failure of the second or third load therefore leaves the earlier
  settings read.
- A level event for a player who has no bar (with bars enabled) throws. The
  sound and firework are then not produced.
- Join does not touch the timestamp map. A player who joins again without
  leaving keeps their old timestamp.

## Model

| member | source | states |
|---|---|---|
| `Progress.Percent` | src/main/java/io/github/zerthick/mcskillsleveleffects/McSkillsLevelEffects.java:209-212 | the fraction never exceeds 1; it equals the raw ratio when that is at most 1 and is 1 otherwise; it is non-negative for non-negative experience over a positive requirement, and negative for negative experience (no lower clamp) |
| `Progress.PercentMonotone` | src/main/java/io/github/zerthick/mcskillsleveleffects/McSkillsLevelEffects.java:246-249 | over the same positive requirement, more experience never shows a smaller fraction |
| `Progress.PercentFullAtRequirement` | src/main/java/io/github/zerthick/mcskillsleveleffects/McSkillsLevelEffects.java:210-212 | experience at or above a positive requirement shows a full bar |
| `LevelUp.JavaRem` | src/main/java/io/github/zerthick/mcskillsleveleffects/McSkillsLevelEffects.java:266 | Java's `%`: the dividend minus the remainder is a multiple of the divisor, the remainder is smaller in magnitude than the divisor and has the sign of the dividend, which together fix its value |
| `LevelUp.JavaRemZeroIffDivides` | src/main/java/io/github/zerthick/mcskillsleveleffects/McSkillsLevelEffects.java:266 | Java's remainder is zero exactly when Dafny's Euclidean remainder is zero, for every sign of either operand |
| `LevelUp.FireworkFires` | src/main/java/io/github/zerthick/mcskillsleveleffects/McSkillsLevelEffects.java:266 | the gate (non-zero interval and Java remainder of the level zero) holds exactly when the interval is non-zero and divides the level |
| `LevelUp.FireworkFiresAtMultiples` | src/main/java/io/github/zerthick/mcskillsleveleffects/McSkillsLevelEffects.java:266 | every multiple of a non-zero interval (negative levels and intervals included) fires |
| `LevelUp.ZeroIntervalNeverFires` | src/main/java/io/github/zerthick/mcskillsleveleffects/McSkillsLevelEffects.java:266 | an interval of 0 never fires, whatever the level |
| `LevelUp.LevelUpEffects` | src/main/java/io/github/zerthick/mcskillsleveleffects/McSkillsLevelEffects.java:260-278 | a level-down asks for nothing; a level-up sounds iff sounds are enabled and fires iff the interval is non-zero and divides the level |
| `Settings.LoadConfig` | src/main/java/io/github/zerthick/mcskillsleveleffects/McSkillsLevelEffects.java:119-130 | each setting read takes the key's value or its default (true, true, 10); a failed load leaves that setting and all later ones at false, false, 0 |
| `Settings.LoadConfigRoundTrip` | src/main/java/io/github/zerthick/mcskillsleveleffects/McSkillsLevelEffects.java:121-126 | a file holding all three keys, loaded without failure, yields exactly its values |
| `Settings.LoadConfigEmptyFile` | src/main/java/io/github/zerthick/mcskillsleveleffects/McSkillsLevelEffects.java:122-126 | a file holding none of the keys, loaded without failure, yields true, true, 10 |
| `BossBars.IsStale` | src/main/java/io/github/zerthick/mcskillsleveleffects/McSkillsLevelEffects.java:140 | comparing the duration since the timestamp, as whole seconds and a nanosecond part, with ten seconds is exactly "strictly more than ten seconds, in nanoseconds" |
| `BossBars.Swept` | src/main/java/io/github/zerthick/mcskillsleveleffects/McSkillsLevelEffects.java:139-143 | a sweep keeps every player, name and percent; a bar is visible afterwards iff it was visible and its timestamp is not more than ten seconds old (a bar without a timestamp is never hidden) |
| `BossBars.SweptIdempotent` | src/main/java/io/github/zerthick/mcskillsleveleffects/McSkillsLevelEffects.java:139-143 | a second sweep at the same instant changes nothing |
| `BossBars.SweptLaterSubsumes` | src/main/java/io/github/zerthick/mcskillsleveleffects/McSkillsLevelEffects.java:139-146 | a sweep at a later instant hides everything an earlier one did; the earlier one makes no difference |
| `BossBars.ShownBarSurvivesSweep` | src/main/java/io/github/zerthick/mcskillsleveleffects/McSkillsLevelEffects.java:140 | a bar shown at time t is left untouched by every sweep up to t plus ten seconds (the comparison is strict) |
| `BossBars.Registry.constructor` | src/main/java/io/github/zerthick/mcskillsleveleffects/McSkillsLevelEffects.java:132-135 | after initialisation both maps are empty and the invariant holds |
| `BossBars.Registry.Join` | src/main/java/io/github/zerthick/mcskillsleveleffects/McSkillsLevelEffects.java:160-177 | with bars enabled the player maps to a fresh hidden bar, replacing any previous one; otherwise nothing changes; timestamps and other players are untouched |
| `BossBars.Registry.Leave` | src/main/java/io/github/zerthick/mcskillsleveleffects/McSkillsLevelEffects.java:181-187 | the player's key leaves both maps and nothing else changes (an absent key changes nothing); with bars disabled the handler throws on the unallocated map |
| `BossBars.Registry.OnExperience` | src/main/java/io/github/zerthick/mcskillsleveleffects/McSkillsLevelEffects.java:190-223 | ignored when bars are off or the account or skill id is missing; throws without change on an unknown skill or a player without a bar; otherwise the bar gets the skill's name, the capped ratio of (stored experience + delta) to the requirement of the pre-event level, and visible, and the timestamp becomes now; others untouched |
| `BossBars.Registry.OnLevel` | src/main/java/io/github/zerthick/mcskillsleveleffects/McSkillsLevelEffects.java:226-280 | ignored without a skill id; throws without change or effects on an unknown skill or (bars on) a player without a bar; with bars on the bar gets the name, the capped ratio of remaining experience to the new level's requirement, and visible, and the timestamp becomes now; the sound and firework follow their own settings whether or not bars are enabled |
| `BossBars.Registry.Sweep` | src/main/java/io/github/zerthick/mcskillsleveleffects/McSkillsLevelEffects.java:138-146 | one run of the clear task leaves the bars equal to `Swept` of the old bars and timestamps, leaves timestamps unchanged and keeps the invariant |

## Left out

- Config file creation from the bundled asset and the save that follows it
  (lines 106-117) are file I/O. The asset's contents are not part of this
  model. `LoadConfig` takes each load's result as a parameter.
- Settings.LoadConfig: a key is either present with a value of the expected
  type or absent. Configurate's coercion of values of other types is not
  modelled.
- Logging (lines 115, 129, 154-156) is left out.
- The scheduling of the clear task every five seconds is left out. A caller
  invokes `Sweep(now)` instead.
- The clock (`Instant.now()`) becomes a `now` parameter in nanoseconds.
- BossBars.Registry.Sweep: one run judges every entry at the same instant
  `now`. The source reads the clock once per entry inside the loop, so an
  entry visited later in a run is judged at a slightly later instant, and an
  entry that turns stale partway through a run may be hidden by that run.
  No single `now` reproduces such a run. `SweptLaterSubsumes` shows that the
  next run hides whatever this one missed.
- The boss bar's cosmetics (colour, overlay, fog, sky, music) and
  `addPlayer` are left out. So are the sound playback, the projectile launch
  (which may itself fail) and the firework's colour and shape. The model
  returns the decisions only, as `Effects`.
- Bars are values in a map, not the engine's mutable handles. Each handle
  belongs to exactly one map entry and is never shared, so no aliasing is
  lost.
- What the bar implementation does with a fraction outside [0, 1] is not
  part of this model.
- Progress.Percent: uses exact `real` division instead of the `float` cast,
  so rounding is not modelled. It requires a non-zero requirement: with a
  zero requirement Java's float division gives an infinity or NaN rather
  than an exception, and real arithmetic cannot represent either.
- Experience and levels are unbounded integers. The `long` addition of stored
  experience and delta could overflow, and that is not modelled. Java's
  `int %` cannot overflow, so the firework gate is exact.
- Handlers run one at a time on the server thread. No concurrency is modelled.
