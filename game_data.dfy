/**
 * The constant tables of client/src/lib/gameData.ts and the facts the
 * components rely on about them.
 */
module GameData {
  import opened Common
  import opened Text

  /** `RARITY_STARS`, and the key order of its object literal. */
  const RarityStars: map<string, int> :=
    map["common" := 1, "uncommon" := 2, "rare" := 3, "epic" := 4, "legendary" := 5]
  const Rarities: seq<string> := ["common", "uncommon", "rare", "epic", "legendary"]

  /** `TEA_TYPES`. */
  const TeaTypes: seq<string> :=
    ["Green Tea", "Black Tea", "Oolong", "White Tea", "Herbal", "Powdered Green"]

  /** One entry of `QUEST_TYPES`. */
  datatype QuestTypeStyle = QuestTypeStyle(labelText: string, bgColor: string, textColor: string, badgeColor: string)

  const QuestTypes: map<string, QuestTypeStyle> := map[
    "daily" := QuestTypeStyle("DAILY", "from-yellow-600 to-yellow-400", "text-amber-900", "bg-amber-900 text-yellow-400"),
    "weekly" := QuestTypeStyle("WEEKLY", "from-red-900 to-amber-900", "text-amber-100", "bg-yellow-400 text-amber-900"),
    "special" := QuestTypeStyle("SPECIAL", "from-purple-900 to-red-900", "text-purple-100", "bg-purple-400 text-purple-900")
  ]

  /** `DAYS_OF_WEEK`. */
  const DaysOfWeek: seq<string> :=
    ["monday", "tuesday", "wednesday", "thursday", "friday", "saturday", "sunday"]

  /** `DAY_DISPLAY_NAMES`. */
  const DayDisplayNames: map<string, string> := map[
    "monday" := "MONDAY", "tuesday" := "TUESDAY", "wednesday" := "WEDNESDAY",
    "thursday" := "THURSDAY", "friday" := "FRIDAY",
    "saturday" := "WEEKEND", "sunday" := "WEEKEND"
  ]

  predicate IsWeekend(day: string)
  {
    day == "saturday" || day == "sunday"
  }

  /** The star table is defined for exactly the five rarities and numbers them 1..5 from common up. */
  lemma RarityStarsRank()
    ensures RarityStars.Keys == set r | r in Rarities
    ensures Distinct(Rarities)
    ensures forall i :: 0 <= i < |Rarities| ==> RarityStars[Rarities[i]] == i + 1
    ensures forall i, j :: 0 <= i < j < |Rarities| ==> RarityStars[Rarities[i]] < RarityStars[Rarities[j]]
  {
  }

  lemma TeaTypesDistinct()
    ensures |TeaTypes| == 6 && Distinct(TeaTypes)
  {
  }

  /** Every quest type's label is its key in upper case. */
  lemma QuestTypeLabels()
    ensures QuestTypes.Keys == {"daily", "weekly", "special"}
    ensures forall k :: k in QuestTypes ==> QuestTypes[k].labelText == Upper(k)
  {
  }

  /** Seven distinct days, monday first and sunday last. */
  lemma DaysOfWeekShape()
    ensures |DaysOfWeek| == 7 && Distinct(DaysOfWeek)
    ensures DaysOfWeek[0] == "monday" && DaysOfWeek[6] == "sunday"
  {
  }

  /** The display names cover exactly the seven days: weekend days read WEEKEND, the others their upper-case name. */
  lemma DayDisplayNamesShape()
    ensures DayDisplayNames.Keys == set d | d in DaysOfWeek
    ensures forall d :: d in DayDisplayNames ==>
              DayDisplayNames[d] == if IsWeekend(d) then "WEEKEND" else Upper(d)
  {
    WeekdaysUpper();
    assert DayDisplayNames.Keys == {"monday", "tuesday", "wednesday", "thursday", "friday", "saturday", "sunday"};
  }

  lemma WeekdaysUpper()
    ensures Upper("monday") == "MONDAY" && Upper("tuesday") == "TUESDAY" && Upper("wednesday") == "WEDNESDAY"
    ensures Upper("thursday") == "THURSDAY" && Upper("friday") == "FRIDAY"
  {
    assert Upper("monday") == "MONDAY";
    assert Upper("tuesday") == "TUESDAY";
    assert Upper("wednesday") == "WEDNESDAY";
    assert Upper("thursday") == "THURSDAY";
    assert Upper("friday") == "FRIDAY";
  }
}
