/**
 * The experience arithmetic of the player header
 * (client/src/components/PlayerHeader.tsx): the threshold of a level, the
 * next threshold, the experience earned inside the current level and the
 * width of a level. The comment in the source calls the growth exponential;
 * the arithmetic is linear, every level being 1000 wide.
 */
module PlayerHeader {
  import Rewards

  /** `getExpForLevel`: the header's threshold of a level is the server's level-up threshold. */
  function ExpForLevel(level: int): (r: int)
    ensures r == Rewards.LevelThreshold(level)
  {
    level * 1000
  }

  /** `nextLevelExp`: the threshold of the level above. */
  function NextLevelExp(level: int): (r: int)
    ensures r == ExpForLevel(level) + 1000
  {
    ExpForLevel(level + 1)
  }

  /**
   * `expInCurrentLevel`: level 1 counts from zero, higher levels from the previous threshold. From
   * level 1 up the two branches agree on one formula, the experience above the previous level's
   * threshold; below level 1 the whole experience is counted.
   */
  function ExpInCurrentLevel(level: int, experience: int): (r: int)
    ensures level >= 1 ==> r == experience - ExpForLevel(level - 1)
    ensures level < 1 ==> r == experience
  {
    experience - (if level > 1 then ExpForLevel(level - 1) else 0)
  }

  /** `expNeededForLevel`: the distance between the next threshold and the current one. */
  function ExpNeededForLevel(level: int): (r: int)
    ensures r == 1000
  {
    NextLevelExp(level) - ExpForLevel(level)
  }

  /** A player whose experience lies in its level's band sees a bar between 0 and 1000 exclusive. */
  lemma ExpInBand(level: int, experience: int)
    requires level >= 1 && ExpForLevel(level - 1) <= experience < ExpForLevel(level)
    ensures 0 <= ExpInCurrentLevel(level, experience) < ExpNeededForLevel(level)
  {
  }

  /**
   * The server's level band and the header agree: a player from level 1 up whom completions keep in
   * band (rewards of at most 1000 each, `Rewards.AwardKeepsBand`) always sees a bar within one level.
   */
  lemma AwardedBarWithinLevel(s: Rewards.Stats, xp: int, coins: int)
    requires s.level >= 1 && Rewards.InBand(s) && 0 <= xp <= 1000
    ensures var r := Rewards.Award(s, xp, coins);
            0 <= ExpInCurrentLevel(r.level, r.experience) < ExpNeededForLevel(r.level)
  {
    Rewards.AwardKeepsBand(s, xp, coins);
    var r := Rewards.Award(s, xp, coins);
    ExpInBand(r.level, r.experience);
  }
}
