/**
  The three settings read at game initialisation: whether boss bars are shown,
  whether a level-up plays a sound, and every how many levels a firework fires.
*/
module Settings {

  datatype Option<T> = None | Some(value: T)

  /** The settings as the event handlers see them after initialisation. */
  datatype Config = Config(bossBarEnabled: bool, levelUpSoundEnabled: bool, fireworkInterval: int)

  /**
    What one load of the configuration file yields for the three keys
    `bossbar`, `levelUpSound` and `fireworkInterval`: `None` for a key that
    is absent.
  */
  datatype ConfigFile = ConfigFile(bossbar: Option<bool>, levelUpSound: Option<bool>, fireworkInterval: Option<int>)

  /** The values the fields hold before anything is read (Java's field defaults). */
  const Unread := Config(false, false, 0)

  /** The fallback values the getters are given, used for a key that is absent. */
  const Defaults := Config(true, true, 10)

  function OrElse<T>(o: Option<T>, default: T): T
  {
    match o
    case Some(v) => v
    case None => default
  }

  /**
    The settings after initialisation. The file is loaded afresh for each of
    the three keys, in order; a load that fails (`None`) ends the reading, and
    every setting not yet read keeps its Java default.
  */
  function LoadConfig(first: Option<ConfigFile>, second: Option<ConfigFile>, third: Option<ConfigFile>): (c: Config)
    ensures first.None? ==> c == Unread
    ensures first.Some? ==> c.bossBarEnabled == OrElse(first.value.bossbar, Defaults.bossBarEnabled)
    ensures first.None? || second.None? ==> c.levelUpSoundEnabled == Unread.levelUpSoundEnabled
    ensures first.Some? && second.Some? ==> c.levelUpSoundEnabled == OrElse(second.value.levelUpSound, Defaults.levelUpSoundEnabled)
    ensures first.None? || second.None? || third.None? ==> c.fireworkInterval == Unread.fireworkInterval
    ensures first.Some? && second.Some? && third.Some? ==> c.fireworkInterval == OrElse(third.value.fireworkInterval, Defaults.fireworkInterval)
  {
    match (first, second, third)
    case (None, _, _) => Unread
    case (Some(f1), None, _) => Unread.(bossBarEnabled := OrElse(f1.bossbar, Defaults.bossBarEnabled))
    case (Some(f1), Some(f2), None) =>
      Unread.(bossBarEnabled := OrElse(f1.bossbar, Defaults.bossBarEnabled), levelUpSoundEnabled := OrElse(f2.levelUpSound, Defaults.levelUpSoundEnabled))
    case (Some(f1), Some(f2), Some(f3)) =>
      Config(OrElse(f1.bossbar, Defaults.bossBarEnabled), OrElse(f2.levelUpSound, Defaults.levelUpSoundEnabled), OrElse(f3.fireworkInterval, Defaults.fireworkInterval))
  }

  /** A file that holds all three keys, read without failure, gives back exactly its values. */
  lemma LoadConfigRoundTrip(c: Config)
    ensures var f := Some(ConfigFile(Some(c.bossBarEnabled), Some(c.levelUpSoundEnabled), Some(c.fireworkInterval)));
            LoadConfig(f, f, f) == c
  {
  }

  /** A file with none of the keys, read without failure, gives the fallback values the getters are given (true, true, 10). */
  lemma LoadConfigEmptyFile()
    ensures var f := Some(ConfigFile(None, None, None));
            LoadConfig(f, f, f) == Defaults
  {
  }
}
