# Tea-card quest game: a verified model of its game logic

The game lets a player collect tea cards, complete quests and achievements for
experience and coins, level up, and follow a weekly schedule of events. Most
of the repository is user interface and HTTP plumbing. This project models the
parts that carry game logic and proves what they promise:

- **The in-memory store** of the Express server (`MemStorage`). It holds six
  keyed tables (users, tea cards, user cards, quests, weekly events,
  achievements) and one id counter that every create/add operation draws
  from. `Storage.MemStorage` is a class with `map` fields and a counter. Each
  method states its whole new state against the old one (`Snapshot()`), and
  all methods keep one invariant (`Valid`):
  - every key lies below the counter;
  - the ids issued since seeding ascend from 100.
- **The completion endpoints** of the Django back end (`QuestViewSet.complete`
  and `AchievementViewSet.complete`). A goal is completed once, its rewards
  are added to a player, and the player's level goes up by one step when the
  new experience reaches `level * 1000`. The rule is stated on values
  (`Rewards.Award`, `Rewards.Complete`). Then `Rewards.CompleteQuest` and
  `Rewards.CompleteAchievement` are proved to update the model instances
  (`Player`, `Quest`, `Achievement` classes) exactly as the rule says.
- **The mobile client's player slice**: the state `{ currentPlayer, loading,
  error }` and its four reducers. `PlayerSlice.Reduce` is the reducer on
  values. `PlayerSlice.PlayerStore` assigns the draft's fields, and each of its
  methods is proved to leave the state `Reduce` prescribes.
- **The pure derivations of the web client**:
  - the collection view joining the catalog with the owned cards, and its
    rarity/type filters (`Collection`, `Home`);
  - the achievement-to-task transform, the category filter, the completed
    count, the claim gate and the experience figures (`AchievementsPage`,
    `PlayerHeader`);
  - the 12-slot achievement grid (`AchievementsBase`);
  - the per-day grouping of weekly events, a loop over a map of sequences
    (`WeeklyEvents.GroupByDay`), and the day headers;
  - the star rating and class fallbacks of a tea card (`TeaCardView`);
  - the constant tables these rely on (`GameData`).

JavaScript's array operations (`filter`, `find`, `findIndex`) and the object
spread `{ ...current, ...patch }` are modelled once, in `Common`.

A JavaScript `Map` lists its entries in insertion order. In the store,
- seeding (`initializeData`, server/storage.ts:74-308) sets each table's rows
  under their literal ids 1.. while the counter still stands at 1. Each seed
  array is written in ascending id order (`Storage.SeedRowsAscending`), and
  only afterwards is the counter set to 100 (server/storage.ts:308);
- from then on every inserted key is the counter's current value, which is
  above every key already present;
- an update re-uses its key, and the key keeps its place.

So insertion order is ascending key order, and the model lists a table that
way (`Storage.InKeyOrder`). The seeding on values (`Storage.Keyed`) builds the
tables without recording the order itself.

Three facts of the code shape the reward model:
- The level rule is the single step `if player.experience >= player.level *
  1000: player.level += 1` (backend/game/views.py:70-71, 108-109). It raises the
  level by at most one per completion, whatever the reward.
- A completed goal is rejected with status 400 (backend/game/views.py:61, 78,
  98, 116), so its rewards are paid once.
- The Django `Quest` model has no `progress` field (backend/game/models.py:52-66).
  `Rewards.Quest` therefore has none either, while `Storage.Quest` (the Express
  schema) has one.

## Model

| member | source | states |
|---|---|---|
| Common.Override | server/storage.ts:336 | one field of `{ ...current, ...patch }`: the patch's value when it supplies the field, otherwise the current one |
| Common.Overlay | mobile/src/store/playerSlice.ts:25 | two payloads spread in turn act as one payload in which the later one's fields win |
| Common.OverlayOverride | mobile/src/store/playerSlice.ts:25 | spreading two payloads one after the other equals spreading their overlay |
| Common.Filter | server/storage.ts:373 | `Array.prototype.filter`: an order-preserving subsequence of the input; every element it keeps passes and comes from the input, and every passing element of the input is kept |
| Common.FilterCounts | server/storage.ts:373 | the filter keeps each passing element exactly as often as it occurs in the input, and no failing one |
| Common.FilterAppend | client/src/components/WeeklyEvents.tsx:13 | filtering distributes over concatenation, so an event appended to the input lands at the end of its day's filter |
| Common.FilterIdempotent | client/src/pages/Home.tsx:35-39 | filtering a filtered sequence again with the same test changes nothing |
| Common.FilterKeepsAll | client/src/pages/Collection.tsx:60-61 | a test every element passes keeps the whole sequence |
| Common.FilterLengthFull | client/src/pages/Achievements.tsx:129-130 | the filter keeps as many elements as its input exactly when every element passes |
| Common.FilterKeepsNone | client/src/components/WeeklyEvents.tsx:10-11 | a test no element passes keeps the empty sequence |
| Common.FilterLengthDisjoint | client/src/components/WeeklyEvents.tsx:9-15 | filtering by either of two exclusive tests keeps as many elements as the two filters together |
| Common.FindIndex | client/src/pages/Collection.tsx:50 | `findIndex`: the position of the first element that passes, none when no element passes |
| Common.Find | client/src/pages/Collection.tsx:50 | `find`: undefined exactly when no element passes, otherwise the first element that passes |
| Text.UpperChar | client/src/components/WeeklyEvents.tsx:20 | `toUpperCase` on one character: `a`..`z` shift to `A`..`Z`, other characters are kept |
| Text.Upper | client/src/lib/gameData.ts:59-78 | `toUpperCase` on a string: same length, each character upper-cased in place |
| GameData.RarityStarsRank | client/src/lib/gameData.ts:34-40 | `RARITY_STARS` is defined for exactly the five rarities and numbers them 1..5, strictly increasing from common to legendary |
| GameData.TeaTypesDistinct | client/src/lib/gameData.ts:42-49 | `TEA_TYPES` has six distinct entries |
| GameData.QuestTypeLabels | client/src/lib/gameData.ts:59-78 | `QUEST_TYPES` has the keys daily, weekly and special, each labelled with its key in upper case |
| GameData.DaysOfWeekShape | client/src/lib/gameData.ts:80-88 | `DAYS_OF_WEEK` lists seven distinct days from monday to sunday |
| GameData.DayDisplayNamesShape | client/src/lib/gameData.ts:80-98 | `DAY_DISPLAY_NAMES` is defined for exactly the days of `DAYS_OF_WEEK`; saturday and sunday read WEEKEND, every other day its upper-case name |
| Storage.KeysBelow | server/storage.ts:342 | the keys of a table below a bound, strictly ascending, each present, and none missing |
| Storage.InKeyOrder | server/storage.ts:342 | `Array.from(m.values())`: one value per key, listed in key order |
| Storage.InKeyOrderValues | server/storage.ts:342 | listing a table yields exactly its stored records |
| Storage.FilterTable | server/storage.ts:373 | filtering a listed table keeps exactly the stored records that pass |
| Storage.KeyPosition | server/storage.ts:342 | every key of the table is listed, with its own record at the same position |
| Storage.FindNoneInTable | server/storage.ts:316 | `find` over a table's values is undefined exactly when no stored record passes |
| Storage.FindSomeInTable | server/storage.ts:316 | when `find` over a table's values finds a record, it is the passing record with the smallest key |
| Storage.Keyed | server/storage.ts:156 | `rows.forEach(x => m.set(x.id, x))`: every row's key is present and every entry is a row stored under its own key |
| Storage.KeyedWithin | server/storage.ts:156 | a table seeded from rows with keys in [0, n) has its keys in [0, n) |
| Storage.MergeUser | server/storage.ts:336 | `{ ...user, ...updates }`: each supplied field wins and each unsupplied field keeps its stored value |
| Storage.MergeUserLaws | server/storage.ts:336 | an empty patch changes nothing, and applying the same patch twice equals applying it once |
| Storage.MergeQuest | server/storage.ts:392 | `{ ...quest, ...updates }`: each supplied field wins and each unsupplied field keeps its stored value |
| Storage.MergeQuestLaws | server/storage.ts:392 | an empty patch changes nothing, and applying the same patch twice equals applying it once |
| Storage.Attach | server/storage.ts:361 | `{ ...uc, card }`: the row's id, user, card id and quantity, with the tea card beside them |
| Storage.AttachCards | server/storage.ts:358-362 | the rows with their tea cards attached in order, or "Card not found" for the first row whose card is missing, exactly when some row's card is missing |
| Storage.SeedTeaCardsWithin | server/storage.ts:156 | the seeded tea cards have keys below 100, each under its own id |
| Storage.SeedUserCardsWithin | server/storage.ts:168 | the seeded user cards have keys below 100, each under its own id |
| Storage.SeedQuestsWithin | server/storage.ts:200 | the seeded quests have keys below 100 |
| Storage.SeedWeeklyEventsWithin | server/storage.ts:286 | the seeded weekly events have keys below 100, each under its own id |
| Storage.SeedAchievementsWithin | server/storage.ts:306 | the seeded achievements have keys below 100, each under its own id |
| Storage.SeedRowsAscending | server/storage.ts:87-306 | every seed array lists its rows in strictly ascending id order, so seeding inserts each table's keys in ascending order |
| Storage.SeedTables | server/storage.ts:74-306 | the tables `initializeData` fills; every key in them is below 100, and the catalog, user cards, events and achievements hold each row under its own id |
| Storage.SeedValid | server/storage.ts:308 | after seeding with the counter at 100 the store satisfies its invariant |
| Storage.MemStorage.constructor | server/storage.ts:60-72 | the store holds exactly the seeded tables, the counter stands at 100 and no id has been issued |
| Storage.MemStorage.InitializeData | server/storage.ts:74-309 | given the seeded tables, fills every table with them and leaves the counter at 100 with no id issued, so the store satisfies its invariant |
| Storage.MemStorage.NextId | server/storage.ts:320 | `currentId++` returns the old counter and raises it by one; the id is at least 100, above every earlier one, and new to all six tables, which do not change |
| Storage.MemStorage.GetUser | server/storage.ts:311-313 | the user stored under the id, none when there is none |
| Storage.MemStorage.GetUserByUsername | server/storage.ts:315-317 | none exactly when no user has that username; otherwise the user with that username that has the smallest key |
| Storage.MemStorage.CreateUser | server/storage.ts:319-330 | a user with the old counter as id and level 1, experience 0 and coins 0 whatever the input says; the counter goes up by one and only that new key is added to `users` |
| Storage.MemStorage.UpdateUser | server/storage.ts:332-338 | "User not found" with nothing changed for an absent id; otherwise the merge of the stored user and the patch, stored under the same key, with every other entry, table and the counter unchanged |
| Storage.MemStorage.GetAllTeaCards | server/storage.ts:341-343 | exactly the stored tea cards, in ascending id order |
| Storage.MemStorage.GetTeaCard | server/storage.ts:345-347 | the tea card stored under the id, whose own id is that id; none when there is none |
| Storage.MemStorage.CreateTeaCard | server/storage.ts:349-354 | the input under the old counter as id; the counter goes up by one and only that key is added to `teaCards` |
| Storage.MemStorage.UserCardRows | server/storage.ts:357 | the user's card rows: exactly the stored rows with that `userId`, in insertion order, each as often as it is listed in the table |
| Storage.MemStorage.GetUserCards | server/storage.ts:356-363 | a failure exactly when one of the user's rows references a missing tea card, reporting the first such row; otherwise one result per row, in order, carrying the tea card whose id equals its `cardId` |
| Storage.MemStorage.AddUserCard | server/storage.ts:365-370 | always a new row under the old counter as id, even for a user/card pair already present; no existing row changes |
| Storage.MemStorage.GetUserQuests | server/storage.ts:372-374 | exactly the stored quests with that `userId`, in insertion order, each as often as it is listed in the table |
| Storage.MemStorage.CreateQuest | server/storage.ts:376-386 | a quest under the old counter as id with progress 0 and not completed, whatever the input says; only that key is added to `quests` |
| Storage.MemStorage.UpdateQuest | server/storage.ts:388-394 | "Quest not found" with nothing changed for an absent id; otherwise the merge of the stored quest and the patch, stored under the same key, with everything else unchanged |
| Storage.MemStorage.GetWeeklyEvents | server/storage.ts:397-399 | exactly the stored events that are active, in insertion order, each as often as it is listed in the table |
| Storage.MemStorage.CreateWeeklyEvent | server/storage.ts:401-406 | the input under the old counter as id; only that key is added to `weeklyEvents` |
| Storage.MemStorage.GetUserAchievements | server/storage.ts:408-410 | exactly the stored achievements with that `userId`, in insertion order, each as often as it is listed in the table |
| Storage.MemStorage.CreateAchievement | server/storage.ts:412-421 | the input stamped with the given time under the old counter as id; only that key is added to `achievements` |
| Rewards.LevelThreshold | backend/game/views.py:70 | the experience a player must reach to step up from a level is that level's multiple of 1000 |
| Rewards.Award | backend/game/views.py:66-71 | experience and coins grow by exactly the rewards; the level rises by at most one, and rises exactly when the new experience reaches the old level times 1000 |
| Rewards.Complete | backend/game/views.py:61-78 | accepted exactly when the goal is not completed and a player exists; an accepted request completes the goal and awards the player; a rejected one changes nothing; progress and requirement are not consulted |
| Rewards.CompleteTwice | backend/game/views.py:61-78 | a second completion of the same goal is rejected and changes nothing, so the rewards are paid once |
| Rewards.CompleteWithoutPlayer | backend/game/views.py:59-61 | without a player the request is rejected and the goal stays as it was |
| Rewards.AwardKeepsBand | backend/game/views.py:70-71 | a player whose experience lies in its level's band stays in band after a reward of at most 1000 |
| Rewards.AwardSkipsBand | backend/game/views.py:70-71 | a reward above 1000 can leave level and experience out of step: a level-1 player who earns 2000 ends at level 2 with 2000 experience |
| Rewards.Player.constructor | backend/game/models.py:25-32 | a new player starts at level 1 with no experience and 100 coins |
| Rewards.Achievement.constructor | backend/game/models.py:75-85 | a new achievement starts without progress and not completed |
| Rewards.StatsOf | backend/game/views.py:59 | no stats exactly when there is no player |
| Rewards.CompleteQuest | backend/game/views.py:55-78 | the quest's flag and the first player's stats end as `Complete` prescribes; the reply is the serialized quest, or status 400 "Quest already completed"; the player's other fields and the quest's other fields are unchanged |
| Rewards.CompleteAchievement | backend/game/views.py:86-116 | an achievement that does not belong to the first player is not found (404) and nothing changes; for one of its own, the flag and that player's stats end as `Complete` prescribes, and the reply is the serialized achievement, or status 400 "Achievement already completed"; the player's name and password are unchanged |
| PlayerSlice.MergePlayer | mobile/src/store/playerSlice.ts:25 | `{ ...currentPlayer, ...payload }`: each supplied field wins and each unsupplied field keeps the player's value |
| PlayerSlice.MergeOverlay | mobile/src/store/playerSlice.ts:25 | spreading two payloads in turn equals spreading their overlay once |
| PlayerSlice.MergePlayerLaws | mobile/src/store/playerSlice.ts:25 | an empty payload changes nothing, and spreading the same payload twice equals spreading it once |
| PlayerSlice.Reduce | mobile/src/store/playerSlice.ts:19-34 | `setPlayer` replaces the player; `updatePlayerStats` is a no-op without a player and otherwise merges the payload; `setLoading` and `setError` change their own field only |
| PlayerSlice.UpdateTwice | mobile/src/store/playerSlice.ts:23-27 | dispatching the same `updatePlayerStats` payload twice leaves the state of dispatching it once |
| PlayerSlice.UpdatesCompose | mobile/src/store/playerSlice.ts:23-27 | two `updatePlayerStats` dispatches in a row leave the state of one dispatch of their overlaid payload |
| PlayerSlice.NoPlayerStaysNoPlayer | mobile/src/store/playerSlice.ts:23-24 | every action except `setPlayer` leaves a state without a player without one |
| PlayerSlice.FlagsCommute | mobile/src/store/playerSlice.ts:28-33 | `setLoading` and `setError` are idempotent and commute |
| PlayerSlice.PlayerStore.constructor | mobile/src/store/playerSlice.ts:10-14 | the initial state: no player, not loading, no error |
| PlayerSlice.PlayerStore.SetPlayer | mobile/src/store/playerSlice.ts:20-22 | the new state is the reducer's result for `setPlayer` on the old state |
| PlayerSlice.PlayerStore.UpdatePlayerStats | mobile/src/store/playerSlice.ts:23-27 | the new state is the reducer's result for `updatePlayerStats` on the old state |
| PlayerSlice.PlayerStore.SetLoading | mobile/src/store/playerSlice.ts:28-30 | the new state is the reducer's result for `setLoading` on the old state |
| PlayerSlice.PlayerStore.SetError | mobile/src/store/playerSlice.ts:31-33 | the new state is the reducer's result for `setError` on the old state |
| Collection.Matches | client/src/pages/Collection.tsx:60-61 | a filter value matches when it is "all" or equals the card's value |
| Collection.Entry | client/src/pages/Collection.tsx:50-56 | the catalog card with `isOwned` exactly when some owned row references it, and the quantity and row id of the first such row; quantity 0 and no row id otherwise |
| Collection.CompleteCollection | client/src/pages/Collection.tsx:49-57 | one tile per catalog card, same length and order, each carrying its catalog card unchanged |
| Collection.Keeps | client/src/pages/Collection.tsx:60-62 | a tile is kept when both its rarity and its type match their filters |
| Collection.Keeper | client/src/pages/Collection.tsx:59-63 | the test `filteredCards` passes to `filter`, which is `Keeps` for the chosen filters |
| Collection.FilteredCards | client/src/pages/Collection.tsx:59-63 | an order-preserving subsequence of the collection holding exactly the tiles whose rarity and type match the filters, "all" matching anything, each as often as it occurs in the collection |
| Collection.AllFiltersShowAll | client/src/pages/Collection.tsx:60-61 | with both filters on "all" every tile is shown |
| Collection.FilteredCardsIdempotent | client/src/pages/Collection.tsx:59-63 | filtering the shown tiles again with the same filters changes nothing |
| Collection.OwnedCount | client/src/pages/Collection.tsx:152 | the collected count never exceeds the catalog size |
| Collection.OwnedIffReferenced | client/src/pages/Collection.tsx:50-53 | a catalog card is shown as owned exactly when some owned row has its id as `cardId` |
| Home.KeepsOwned | client/src/pages/Home.tsx:36-38 | an owned card is kept when both its tea card's rarity and type match their filters |
| Home.FilteredUserCards | client/src/pages/Home.tsx:35-39 | an order-preserving subsequence of the owned cards holding exactly those whose card's rarity and type match the filters, "all" matching anything, each as often as it occurs in the input |
| Home.AllFiltersShowAllOwned | client/src/pages/Home.tsx:36-37 | with both filters on "all" every owned card is shown |
| Home.FilteredUserCardsIdempotent | client/src/pages/Home.tsx:35-39 | filtering the shown cards again with the same filters changes nothing |
| Home.HomeAgreesWithCollection | client/src/pages/Home.tsx:36-38 | the home filter keeps an owned card exactly when the collection filter keeps the tile of the same tea card |
| AchievementsPage.TransformAchievementToTask | client/src/pages/Achievements.tsx:89-123 | the achievement is kept as is; no points unless the title is "Tea Explorer", which gets yellow, green and red, point i done exactly when progress reaches i |
| AchievementsPage.CompletedPointsPrefix | client/src/pages/Achievements.tsx:94-116 | the completed points of a task come first |
| AchievementsPage.ShowsBubbleIff | client/src/pages/Achievements.tsx:250 | a task bubble is drawn exactly for the "collection" achievement titled "Tea Explorer" |
| AchievementsPage.FilterByCategory | client/src/pages/Achievements.tsx:125-127 | every achievement for "all"; otherwise an order-preserving subsequence holding exactly the achievements of the selected category, each as often as it occurs in the input |
| AchievementsPage.CompletedCount | client/src/pages/Achievements.tsx:129-130 | the completed count is at most the total, and equals it exactly when every achievement is completed |
| AchievementsPage.CanComplete | client/src/pages/Achievements.tsx:258 | the claim button is offered when progress has reached the requirement and the achievement is not completed |
| AchievementsPage.CanCompleteIsAccepted | client/src/pages/Achievements.tsx:258 | the page's gate implies acceptance by the views.py completion rule, compared as predicates; the converse fails, since that rule also accepts a goal whose progress falls short |
| AchievementsPage.ExpFigures | client/src/pages/Achievements.tsx:134-138 | the defaults 1000, 2000, 0 and 1000 without a user; with one, the level thresholds, the experience above the previous threshold from level 1 up, and a level width of 1000 |
| AchievementsBase.DisplayedAchievements | client/src/components/AchievementsBase.tsx:32 | at most 12 achievements, the first ones in order |
| AchievementsBase.PlaceholderCount | client/src/components/AchievementsBase.tsx:91-92 | with fewer than 12 shown achievements the placeholders fill the remaining slots; with 12 or more there are none |
| AchievementsBase.GridIsFull | client/src/components/AchievementsBase.tsx:91-92 | shown achievements and placeholders always fill exactly 12 slots |
| AchievementsBase.CountsBadge | client/src/components/AchievementsBase.tsx:28-29 | the completed count, never above the total |
| AchievementsBase.ShowsProgressBadge | client/src/components/AchievementsBase.tsx:79 | the progress badge appears exactly when the achievement is not completed and has some progress |
| AchievementsBase.BadgeValue | client/src/components/AchievementsBase.tsx:82 | the badge shows the lesser of progress and requirement, so it never exceeds the requirement |
| PlayerHeader.ExpForLevel | client/src/components/PlayerHeader.tsx:17 | the header's threshold of a level is the server's level-up threshold for it |
| PlayerHeader.NextLevelExp | client/src/components/PlayerHeader.tsx:19 | the next threshold is 1000 above the current one |
| PlayerHeader.ExpNeededForLevel | client/src/components/PlayerHeader.tsx:21 | every level is 1000 wide: the growth is linear |
| PlayerHeader.ExpInCurrentLevel | client/src/components/PlayerHeader.tsx:20 | from level 1 up both branches give the experience above the previous level's threshold; below level 1 the whole experience |
| PlayerHeader.ExpInBand | client/src/components/PlayerHeader.tsx:20-21 | a player whose experience lies in its level's band sees a bar from 0 up to, but not reaching, 1000 |
| PlayerHeader.AwardedBarWithinLevel | client/src/components/PlayerHeader.tsx:20-21 | after a back-end reward of at most 1000 to an in-band player, the header's bar stays within one level |
| WeeklyEvents.OnDay | client/src/components/WeeklyEvents.tsx:13 | the events of one day: an order-preserving subsequence holding every event of that day, each as often as it occurs in the input, and no other |
| WeeklyEvents.GroupedOpen | client/src/components/WeeklyEvents.tsx:10-11 | a day that has no bucket yet has had no events |
| WeeklyEvents.GroupedPush | client/src/components/WeeklyEvents.tsx:13 | pushing an event onto its day's bucket extends the grouping by that event |
| WeeklyEvents.PushedBuckets | client/src/components/WeeklyEvents.tsx:13 | after the push every bucket holds its day's events of the extended input |
| WeeklyEvents.PushedDays | client/src/components/WeeklyEvents.tsx:10-13 | after the push the buckets are keyed by exactly the days of the extended input |
| WeeklyEvents.GroupByDay | client/src/components/WeeklyEvents.tsx:9-15 | a bucket exists exactly for the days some event falls on, and it holds that day's events in input order |
| WeeklyEvents.BucketSizesCount | client/src/components/WeeklyEvents.tsx:9-15 | over distinct days the buckets together hold exactly the events on those days |
| WeeklyEvents.BucketsHoldAll | client/src/components/WeeklyEvents.tsx:9-15 | when every event falls on one of the distinct days, the bucket sizes add up to the number of events |
| WeeklyEvents.ColumnsCoverWeek | client/src/components/WeeklyEvents.tsx:17 | the day order is `DAYS_OF_WEEK`; the left column shows the first three days and the right column the other four, so each day appears once |
| WeeklyEvents.DayDisplayName | client/src/components/WeeklyEvents.tsx:19-21 | same length, the first character upper-cased and the rest kept |
| WeeklyEvents.RightHeader | client/src/components/WeeklyEvents.tsx:74 | saturday and sunday read WEEKEND, every other day its display name |
| WeeklyEvents.RightHeaders | client/src/components/WeeklyEvents.tsx:70-74 | the right column reads Thursday, Friday, WEEKEND, WEEKEND |
| WeeklyEvents.RightHeadersAgainstDisplayNames | client/src/components/WeeklyEvents.tsx:74 | on the right column the headers agree with `DAY_DISPLAY_NAMES` exactly on the weekend |
| TeaCardView.RarityClass | client/src/components/TeaCard.tsx:52 | the rarity's colour class, or the common one for an unknown rarity |
| TeaCardView.BorderClass | client/src/components/TeaCard.tsx:53 | the rarity's border class, or the common one for an unknown rarity |
| TeaCardView.StarCount | client/src/components/TeaCard.tsx:55-64 | between 1 and 5; it agrees with `RARITY_STARS` on the five rarities and gives 1 to any other string |
| TeaCardView.StarSlots | client/src/components/TeaCard.tsx:89-93 | five slots, of which exactly the first `starCount` are filled |
| TeaCardView.StarSlotsMonotone | client/src/components/TeaCard.tsx:89-93 | the filled stars come first, and a higher rarity fills every star a lower one fills |
| TeaCardView.QuantityBadge | client/src/components/TeaCard.tsx:79 | the badge appears exactly when the quantity exceeds 1, and shows that quantity |
| TeaCardView.ClassTablesCoverRarities | client/src/components/TeaCard.tsx:26-40 | the colour and border tables cover exactly the rarities of `RARITY_STARS` |

## Left out

- Rendering: JSX, icons, toasts and navigation are left out. The model keeps the
  logic the components compute and not how it is drawn. This covers the star
  colours, the `abilityColors` table, the legendary glow, the "x{quantity}"
  text and the "No events scheduled" placeholder.
- Percentages and `Math.round`/`Math.min` over fractions (progress bars,
  completion percentage): they are floating point, so they are not modelled.
- Timestamps: the `new Date()` stamped on achievements is a `now` parameter.
- HTTP routing: the Express routes and their mapping of exceptions to 404/500,
  the `fetch` mutations of the client, and the `/api/complete-achievement`
  endpoint the web client calls are not part of this model. That endpoint has
  no route on the server.
- Rewards.CompleteQuest: the `get_object()` lookup and its 404 for an unknown
  id are not modelled. The quest is a parameter, and `Player.objects.first()`
  is the `first` parameter, `null` when there is no player.
- Rewards.CompleteAchievement: the achievement is a parameter, so the 404 for
  an id that no achievement has is not modelled. The 404 for an achievement of
  another player, which the first-player queryset gives, is modelled.
- Concurrency: each operation is atomic. The read-modify-write of the Django
  views and the order of their two `save()` calls are not modelled.
- Integer width: numbers are unbounded integers. JavaScript's floating-point
  numbers and the database's integer columns are not modelled at their width.
- Patches: a field explicitly set to `undefined` in a patch counts as a field
  not supplied. In JavaScript it would overwrite the stored value with
  `undefined`.
- Object lookups: `acc[day]` and `rarityColors[rarity]` are map lookups.
  Keys inherited from `Object.prototype` (such as `"constructor"`) are not
  modelled.
- Text.Upper: only ASCII letters are upper-cased. Unicode case mapping is not
  modelled.
- Storage.MemStorage.GetAllTeaCards: the listing order is ascending key order.
  That equals insertion order because the seed arrays ascend by id and every
  later key is the counter's current value. The model does not record the
  insertion order itself.
- Storage.MemStorage.GetUserCards: a failure is a `Failure` value carrying the
  `cardId`. The exact message text "Card not found: <id>" is not modelled.
- Seed data: the seeded rows are constants with no level/experience invariant.
  The seeded user is at level 23 with 8450 experience.
- The `RARITY_COLORS` and `POWER_TYPES` tables of `gameData.ts` are data for
  rendering only and are not modelled.
- The Django serializers, URL configuration and admin, and the queries of the
  mobile API, are not part of this model.
