/**
 * The completion endpoints of backend/game/views.py: `QuestViewSet.complete`
 * and `AchievementViewSet.complete`. Each marks a goal completed once, adds
 * the goal's experience and coin rewards to a player and applies the
 * single-step level rule `if experience >= level * 1000: level += 1`.
 *
 * The rule is specified on values first (`Award`, `Complete`); the two
 * endpoints are methods over the Django model instances (`Player`, `Quest`,
 * `Achievement`), proved to update them exactly as `Complete` says.
 */
module Rewards {
  import opened Common

  /** The three fields of a player that completion changes. */
  datatype Stats = Stats(level: int, experience: int, coins: int)

  /** Experience a player of `level` must reach to step up: the `level`-th multiple of 1000. */
  function LevelThreshold(level: int): (t: int)
    ensures t % 1000 == 0 && t / 1000 == level
  {
    level * 1000
  }

  /** Add the rewards, then raise the level by one when the new experience reaches the old threshold. */
  function Award(s: Stats, xp: int, coins: int): (r: Stats)
    ensures r.experience == s.experience + xp && r.coins == s.coins + coins
    ensures s.level <= r.level <= s.level + 1
    ensures r.level == s.level + 1 <==> r.experience >= LevelThreshold(s.level)
  {
    var e := s.experience + xp;
    Stats(if e >= LevelThreshold(s.level) then s.level + 1 else s.level, e, s.coins + coins)
  }

  /**
   * The effect of one completion request: the goal's flag after it, the player's stats after it
   * (`None` when there is no player) and whether the request was accepted.
   */
  datatype Outcome = Outcome(completed: bool, player: Option<Stats>, accepted: bool)

  /**
   * `if not goal.is_completed and player: …award… else 400`. Only the flag and the presence of a
   * player decide; the goal's progress and requirement are not consulted.
   */
  function Complete(completed: bool, player: Option<Stats>, xp: int, coins: int): (o: Outcome)
    ensures o.accepted <==> !completed && player.Some?
    ensures o.accepted ==> o.completed && o.player == Some(Award(player.value, xp, coins))
    ensures !o.accepted ==> o.completed == completed && o.player == player
  {
    match player
    case Some(s) =>
      if completed then Outcome(completed, player, false)
      else Outcome(true, Some(Award(s, xp, coins)), true)
    case None => Outcome(completed, player, false)
  }

  /** A second completion of the same goal is rejected and changes nothing: the rewards are paid once. */
  lemma CompleteTwice(completed: bool, player: Option<Stats>, xp: int, coins: int)
    ensures var once := Complete(completed, player, xp, coins);
            var twice := Complete(once.completed, once.player, xp, coins);
            !twice.accepted && twice.completed == once.completed && twice.player == once.player
  {
  }

  /** With no player the request is rejected and neither the goal nor anyone's stats change. */
  lemma CompleteWithoutPlayer(completed: bool, xp: int, coins: int)
    ensures Complete(completed, None, xp, coins) == Outcome(completed, None, false)
  {
  }

  /** The level band a player is in when the level matches the experience: [(level-1)*1000, level*1000). */
  predicate InBand(s: Stats)
  {
    LevelThreshold(s.level - 1) <= s.experience < LevelThreshold(s.level)
  }

  /** A reward of at most 1000 experience keeps a player who is in band in band. */
  lemma AwardKeepsBand(s: Stats, xp: int, coins: int)
    requires InBand(s) && 0 <= xp <= 1000
    ensures InBand(Award(s, xp, coins))
  {
  }

  /**
   * The rule raises the level by one step however large the reward: a level-1 player with no
   * experience who earns 2000 ends at level 2 with 2000 experience, outside that level's band.
   */
  lemma AwardSkipsBand()
    ensures Award(Stats(1, 0, 0), 2000, 0) == Stats(2, 2000, 0)
    ensures !InBand(Stats(2, 2000, 0))
  {
  }

  /** The body of a DRF `Response`: the serialized goal, or an error with its status code. */
  datatype Response<T> = Data(data: T) | Error(status: int, message: string)

  const QuestAlreadyCompleted := "Quest already completed"
  const AchievementAlreadyCompleted := "Achievement already completed"

  /** The detail of the 404 Django REST framework answers when `get_object()` finds nothing. */
  const NotFound := "Not found."

  /** What `QuestSerializer` returns (`fields = '__all__'`). */
  datatype QuestData = QuestData(id: int, title: string, description: string, questType: string,
                                 requirement: int, experienceReward: int, coinReward: int, isCompleted: bool)

  /** What `AchievementSerializer` returns (`fields = '__all__'`; `user` is the player's id). */
  datatype AchievementData = AchievementData(id: int, userId: int, title: string, description: string,
                                             category: string, requirement: int, progress: int,
                                             isCompleted: bool, experienceReward: int, coinReward: int)

  /** A `Player` row. */
  class Player {
    var id: int
    var username: string
    var password: string
    var level: int
    var experience: int
    var coins: int

    function Standing(): Stats
      reads this
    {
      Stats(level, experience, coins)
    }

    /** A new row with the model's defaults: level 1, no experience, 100 coins. */
    constructor (id: int, username: string, password: string)
      ensures this.id == id && this.username == username && this.password == password
      ensures Standing() == Stats(1, 0, 100)
    {
      this.id, this.username, this.password := id, username, password;
      level, experience, coins := 1, 0, 100;
    }
  }

  /** A `Quest` row. */
  class Quest {
    var id: int
    var title: string
    var description: string
    var questType: string
    var requirement: int
    var experienceReward: int
    var coinReward: int
    var isCompleted: bool

    function Data(): QuestData
      reads this
    {
      QuestData(id, title, description, questType, requirement, experienceReward, coinReward, isCompleted)
    }
  }

  /** An `Achievement` row; `user` is the player it belongs to. */
  class Achievement {
    var id: int
    var user: Player
    var title: string
    var description: string
    var category: string
    var requirement: int
    var progress: int
    var isCompleted: bool
    var experienceReward: int
    var coinReward: int

    function Data(): AchievementData
      reads this, user
    {
      AchievementData(id, user.id, title, description, category, requirement, progress,
                      isCompleted, experienceReward, coinReward)
    }

    /** A new row with the model's defaults: no progress, not completed. */
    constructor (id: int, user: Player, title: string, description: string, category: string,
                 requirement: int, experienceReward: int, coinReward: int)
      ensures this.id == id && this.user == user && this.title == title && this.description == description
      ensures this.category == category && this.requirement == requirement
      ensures this.experienceReward == experienceReward && this.coinReward == coinReward
      ensures progress == 0 && !isCompleted
    {
      this.id, this.user, this.title, this.description := id, user, title, description;
      this.category, this.requirement := category, requirement;
      this.experienceReward, this.coinReward := experienceReward, coinReward;
      progress, isCompleted := 0, false;
    }
  }

  /** The stats of `Player.objects.first()`, `None` when the table is empty. */
  function StatsOf(p: Player?): (r: Option<Stats>)
    reads p
    ensures r.None? <==> p == null
  {
    if p == null then None else Some(p.Standing())
  }

  /**
   * `QuestViewSet.complete`: `first` is `Player.objects.first()`, who receives the rewards.
   * The quest's flag and the player's stats end as `Complete` says; nothing else changes.
   */
  method CompleteQuest(quest: Quest, first: Player?) returns (r: Response<QuestData>)
    modifies quest, first
    ensures var o := Complete(old(quest.isCompleted), old(StatsOf(first)), quest.experienceReward, quest.coinReward);
            && quest.Data() == old(quest.Data()).(isCompleted := o.completed)
            && StatsOf(first) == o.player
            && r == (if o.accepted then Data(quest.Data()) else Error(400, QuestAlreadyCompleted))
    ensures first != null ==> first.id == old(first.id) && first.username == old(first.username)
                               && first.password == old(first.password)
  {
    if !quest.isCompleted && first != null {
      quest.isCompleted := true;
      first.experience := first.experience + quest.experienceReward;
      first.coins := first.coins + quest.coinReward;
      if first.experience >= LevelThreshold(first.level) {
        first.level := first.level + 1;
      }
      return Data(quest.Data());
    }
    return Error(400, QuestAlreadyCompleted);
  }

  /**
   * `AchievementViewSet.complete`: `get_object()` looks the achievement up among those of
   * `Player.objects.first()` (`first`), so any other achievement is not found and nothing changes.
   * For one of its own achievements the rewards go to that player, and the flag and the player's
   * stats end as `Complete` says.
   */
  method CompleteAchievement(achievement: Achievement, first: Player?) returns (r: Response<AchievementData>)
    modifies achievement, achievement.user
    ensures achievement.user == old(achievement.user)
    ensures old(achievement.user) != first ==>
              r == Error(404, NotFound) && unchanged(achievement, achievement.user)
    ensures old(achievement.user) == first ==>
              var o := Complete(old(achievement.isCompleted), Some(old(achievement.user.Standing())),
                                achievement.experienceReward, achievement.coinReward);
              && achievement.Data() == old(achievement.Data()).(isCompleted := o.completed)
              && Some(achievement.user.Standing()) == o.player
              && r == (if o.accepted then Data(achievement.Data()) else Error(400, AchievementAlreadyCompleted))
    ensures achievement.user.username == old(achievement.user.username)
    ensures achievement.user.password == old(achievement.user.password)
  {
    if achievement.user != first {
      return Error(404, NotFound);
    }
    if !achievement.isCompleted {
      achievement.isCompleted := true;
      var player := achievement.user;
      player.experience := player.experience + achievement.experienceReward;
      player.coins := player.coins + achievement.coinReward;
      if player.experience >= LevelThreshold(player.level) {
        player.level := player.level + 1;
      }
      return Data(achievement.Data());
    }
    return Error(400, AchievementAlreadyCompleted);
  }
}
