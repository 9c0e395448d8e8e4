/**
 * The achievements page (client/src/pages/Achievements.tsx): the
 * achievement record the client receives, its transformation into a task
 * bubble, the category filter, the completed count, the "claim" gate and
 * the experience figures of the header.
 */
module AchievementsPage {
  import opened Common
  import Storage
  import Rewards
  import opened PlayerHeader

  /** The `Achievement` interface of the web client. */
  datatype Achievement = Achievement(id: int, userId: int, title: string, description: string,
                                     achievementType: string, requirement: int, progress: int,
                                     isCompleted: bool, rewardXp: int, rewardCoins: int,
                                     icon: string, category: string, unlockedAt: Option<string>)

  /** One point of a task bubble. */
  datatype TaskPoint = TaskPoint(id: string, labelText: string, color: string, completed: bool, teaType: string)

  /** `{ ...achievement, points }`. */
  datatype Task = Task(achievement: Achievement, points: seq<TaskPoint>)

  const TeaExplorer := "Tea Explorer"

  /** The three tea points of "Tea Explorer"; the i-th (from 1) is done once progress reaches i. */
  function TeaExplorerPoints(progress: int): seq<TaskPoint>
  {
    [ TaskPoint("yellow", "Yellow Tea", "yellow", progress >= 1, "yellow"),
      TaskPoint("green", "Green Tea", "green", progress >= 2, "green"),
      TaskPoint("red", "Red Tea", "red", progress >= 3, "red") ]
  }

  /** `transformAchievementToTask`. */
  function TransformAchievementToTask(a: Achievement): (t: Task)
    ensures t.achievement == a
    ensures a.title != TeaExplorer ==> t.points == []
    ensures a.title == TeaExplorer ==>
              |t.points| == 3 &&
              t.points[0].color == "yellow" && t.points[1].color == "green" && t.points[2].color == "red" &&
              forall i :: 0 <= i < 3 ==> (t.points[i].completed <==> a.progress >= i + 1)
  {
    Task(a, if a.title == TeaExplorer then TeaExplorerPoints(a.progress) else [])
  }

  /** The completed points of a task always come first. */
  lemma CompletedPointsPrefix(a: Achievement)
    ensures var ps := TransformAchievementToTask(a).points;
            forall i, j :: 0 <= i < j < |ps| && ps[j].completed ==> ps[i].completed
  {
  }

  /** The page draws a task bubble instead of a card exactly for the "collection" achievement titled "Tea Explorer". */
  predicate ShowsBubble(a: Achievement)
  {
    a.category == "collection" && |TransformAchievementToTask(a).points| > 0
  }

  lemma ShowsBubbleIff(a: Achievement)
    ensures ShowsBubble(a) <==> a.category == "collection" && a.title == TeaExplorer
  {
  }

  const AllCategories := "all"

  function InCategory(category: string): Achievement -> bool
  {
    (a: Achievement) => a.category == category
  }

  /** `filteredAchievements`. */
  function FilterByCategory(all: seq<Achievement>, selected: string): (r: seq<Achievement>)
    ensures selected == AllCategories ==> r == all
    ensures IsSubsequence(r, all)
    ensures selected != AllCategories ==> forall a :: a in r <==> a in all && a.category == selected
    ensures selected != AllCategories ==>
              forall a :: multiset(r)[a] == if a.category == selected then multiset(all)[a] else 0
  {
    if selected == AllCategories then
      SubsequenceReflexive(all);
      all
    else
      FilterCounts(all, InCategory(selected));
      Filter(all, InCategory(selected))
  }

  function IsCompleted(a: Achievement): bool { a.isCompleted }

  /** `completedCount`: how many achievements are completed; it reaches `totalCount` only when all are. */
  function CompletedCount(achievements: seq<Achievement>): (n: nat)
    ensures n <= |achievements|
    ensures n == |achievements| <==> forall i :: 0 <= i < |achievements| ==> achievements[i].isCompleted
  {
    FilterLengthFull(achievements, IsCompleted);
    |Filter(achievements, IsCompleted)|
  }

  /** `canComplete`: enough progress and not yet completed. */
  predicate CanComplete(a: Achievement)
  {
    a.progress >= a.requirement && !a.isCompleted
  }

  /**
   * The page's gate implies acceptance by the completion rule of backend/game/views.py, and the
   * converse fails: that rule also accepts a goal whose progress falls short. The gate and the rule
   * are compared as predicates only; the page posts its claims to a route the Express server
   * does not define, so they do not reach that rule.
   */
  lemma CanCompleteIsAccepted(a: Achievement, s: Rewards.Stats)
    ensures CanComplete(a) ==> Rewards.Complete(a.isCompleted, Some(s), a.rewardXp, a.rewardCoins).accepted
    ensures var b := a.(progress := a.requirement - 1, isCompleted := false);
            !CanComplete(b) && Rewards.Complete(b.isCompleted, Some(s), b.rewardXp, b.rewardCoins).accepted
  {
  }

  /** The four experience figures of the page. */
  datatype ExpView = ExpView(currentLevelExp: int, nextLevelExp: int, expInCurrentLevel: int, expNeededForLevel: int)

  /** The figures for the signed-in user, or the defaults 1000, 2000 and 0 while there is none. */
  function ExpFigures(user: Option<Storage.User>): (v: ExpView)
    ensures v.expNeededForLevel == 1000
    ensures user.None? ==> v == ExpView(1000, 2000, 0, 1000)
    ensures user.Some? ==> v.currentLevelExp == ExpForLevel(user.value.level)
                           && v.nextLevelExp == PlayerHeader.NextLevelExp(user.value.level)
                           && v.expInCurrentLevel == ExpInCurrentLevel(user.value.level, user.value.experience)
    ensures user.Some? && user.value.level >= 1 ==>
              v.expInCurrentLevel == user.value.experience - (user.value.level - 1) * 1000
  {
    match user
    case None => ExpView(1000, 2000, 0, 2000 - 1000)
    case Some(u) =>
      var current := ExpForLevel(u.level);
      var next := ExpForLevel(u.level + 1);
      ExpView(current, next, ExpInCurrentLevel(u.level, u.experience), next - current)
  }
}
