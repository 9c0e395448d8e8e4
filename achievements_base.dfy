/**
 * The achievements panel of the home page
 * (client/src/components/AchievementsBase.tsx): a 12-slot grid holding the
 * first achievements and "?" placeholders for the empty slots, a
 * completed/total badge, and a progress badge clamped to the requirement.
 */
module AchievementsBase {
  import opened AchievementsPage

  /** The number of slots in the grid. */
  const GridSlots := 12

  function Min(a: int, b: int): int
  {
    if a < b then a else b
  }

  /** `achievements.slice(0, 12)`. */
  function DisplayedAchievements(achievements: seq<Achievement>): (r: seq<Achievement>)
    ensures |r| == Min(GridSlots, |achievements|)
    ensures forall i :: 0 <= i < |r| ==> r[i] == achievements[i]
  {
    achievements[..Min(GridSlots, |achievements|)]
  }

  /** `displayed.length < 12 && Array.from({ length: 12 - displayed.length })`: the empty slots. */
  function PlaceholderCount(displayed: seq<Achievement>): (n: nat)
    ensures |displayed| <= GridSlots ==> |displayed| + n == GridSlots
    ensures |displayed| >= GridSlots ==> n == 0
  {
    if |displayed| < GridSlots then GridSlots - |displayed| else 0
  }

  /** The grid is always exactly full: shown achievements and placeholders add up to 12. */
  lemma GridIsFull(achievements: seq<Achievement>)
    ensures var d := DisplayedAchievements(achievements);
            |d| <= GridSlots && |d| + PlaceholderCount(d) == GridSlots
  {
  }

  /** The `completedCount/totalCount` badge. */
  function CountsBadge(achievements: seq<Achievement>): (r: (nat, nat))
    ensures r.0 <= r.1 && r.1 == |achievements|
    ensures r.0 == CompletedCount(achievements)
  {
    (CompletedCount(achievements), |achievements|)
  }

  /** The blue progress badge shows exactly on an achievement that is not completed and has some progress. */
  predicate ShowsProgressBadge(a: Achievement)
  {
    !a.isCompleted && a.progress > 0
  }

  /** `Math.min(progress, requirement)`: the progress, clamped to the requirement. */
  function BadgeValue(a: Achievement): (v: int)
    ensures v <= a.requirement && v <= a.progress
    ensures v == a.progress || v == a.requirement
  {
    Min(a.progress, a.requirement)
  }
}
