/**
  The progress fraction a boss bar shows after an experience or level event.

  Both event handlers divide an amount of experience by the experience the
  skill service says a level needs, and replace any result above one by one.
  Nothing bounds the fraction from below.
*/
module Progress {

  /** The unclamped ratio of experience to the level's requirement. */
  function Ratio(experience: int, levelExperience: int): real
    requires levelExperience != 0
  {
    experience as real / levelExperience as real
  }

  /** The fraction written into a bar: the ratio, capped at one from above only. */
  function Percent(experience: int, levelExperience: int): (r: real)
    requires levelExperience != 0
    ensures r <= 1.0
    ensures Ratio(experience, levelExperience) <= 1.0 ==> r == Ratio(experience, levelExperience)
    ensures Ratio(experience, levelExperience) > 1.0 ==> r == 1.0
    ensures 0 <= experience && 0 < levelExperience ==> 0.0 <= r
    ensures experience < 0 && 0 < levelExperience ==> r < 0.0
  {
    var ratio := Ratio(experience, levelExperience);
    if ratio > 1.0 then 1.0 else ratio
  }

  /** More experience never shows a smaller fraction of the same positive requirement. */
  lemma PercentMonotone(e1: int, e2: int, levelExperience: int)
    requires 0 < levelExperience
    requires e1 <= e2
    ensures Percent(e1, levelExperience) <= Percent(e2, levelExperience)
  {
    assert Ratio(e1, levelExperience) <= Ratio(e2, levelExperience) by {
      var d := levelExperience as real;
      assert e1 as real / d * d <= e2 as real / d * d;
    }
  }

  /** Reaching or passing the requirement shows a full bar. */
  lemma PercentFullAtRequirement(experience: int, levelExperience: int)
    requires 0 < levelExperience <= experience
    ensures Percent(experience, levelExperience) == 1.0
  {
    var d := levelExperience as real;
    assert experience as real / d * d == experience as real;
    assert Ratio(experience, levelExperience) >= 1.0;
  }
}
