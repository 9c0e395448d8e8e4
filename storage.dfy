/**
 * The in-memory game store of server/storage.ts (`MemStorage`): six keyed
 * tables and one id counter shared by every create/add operation.
 *
 * A JavaScript `Map` iterates in insertion order. Seeding sets each table's
 * rows under their literal ids 1.. while the counter still stands at 1; each
 * seed array is written in ascending id order (`SeedRowsAscending`), and the
 * counter is set to 100 only afterwards. From then on every key the store
 * inserts is the current value of the counter, which only grows and is above
 * every key already present (see `MemStorage.Valid`), and updates re-use an
 * existing key, which keeps its place. Insertion order is therefore ascending
 * key order, and that is how the model lists a table (`InKeyOrder`). `Keyed`,
 * the seeding on values, builds the tables without recording that order.
 */
module Storage {
  import opened Common

  /** Stands for the `Date` taken when an achievement is written. */
  type Timestamp = int

  datatype User = User(id: int, username: string, password: string, level: int, experience: int, coins: int)

  /** The `InsertUser` a caller passes; the three stats it may carry are overwritten on creation. */
  datatype NewUser = NewUser(username: string, password: string,
                             level: Option<int>, experience: Option<int>, coins: Option<int>)

  /** A `Partial<User>`: `None` is a field the caller did not supply. */
  datatype UserPatch = UserPatch(id: Option<int>, username: Option<string>, password: Option<string>,
                                 level: Option<int>, experience: Option<int>, coins: Option<int>)

  datatype TeaCard = TeaCard(id: int, name: string, teaType: string, origin: string, rarity: string,
                             power: int, powerType: string, imageUrl: string, description: string)

  datatype NewTeaCard = NewTeaCard(name: string, teaType: string, origin: string, rarity: string,
                                   power: int, powerType: string, imageUrl: string, description: string)

  datatype UserCard = UserCard(id: int, userId: int, cardId: int, quantity: int)

  datatype NewUserCard = NewUserCard(userId: int, cardId: int, quantity: int)

  /** One row of `getUserCards`: the user-card row with the referenced tea card attached. */
  datatype OwnedCard = OwnedCard(id: int, userId: int, cardId: int, quantity: int, card: TeaCard)

  datatype Quest = Quest(id: int, title: string, description: string, questType: string,
                         requirement: int, progress: int, rewardXp: int, rewardCoins: int,
                         rewardCardId: int, isCompleted: bool, userId: int)

  /** The `InsertQuest` a caller passes; `progress` and `isCompleted` are overwritten on creation. */
  datatype NewQuest = NewQuest(title: string, description: string, questType: string,
                               requirement: int, rewardXp: int, rewardCoins: int,
                               rewardCardId: int, userId: int,
                               progress: Option<int>, isCompleted: Option<bool>)

  /** A `Partial<Quest>`. */
  datatype QuestPatch = QuestPatch(id: Option<int>, title: Option<string>, description: Option<string>,
                                   questType: Option<string>, requirement: Option<int>, progress: Option<int>,
                                   rewardXp: Option<int>, rewardCoins: Option<int>, rewardCardId: Option<int>,
                                   isCompleted: Option<bool>, userId: Option<int>)

  datatype WeeklyEvent = WeeklyEvent(id: int, title: string, description: string, dayOfWeek: string,
                                     time: string, cost: int, eventType: string, isActive: bool)

  datatype NewWeeklyEvent = NewWeeklyEvent(title: string, description: string, dayOfWeek: string,
                                           time: string, cost: int, eventType: string, isActive: bool)

  datatype Achievement = Achievement(id: int, userId: int, title: string, description: string,
                                     unlockedAt: Timestamp)

  datatype NewAchievement = NewAchievement(userId: int, title: string, description: string)

  /** The exceptions the store throws ("User not found", "Quest not found", "Card not found: <id>"). */
  datatype Error = UserNotFound | QuestNotFound | CardNotFound(cardId: int)

  /** The contents of all six tables at once. */
  datatype Tables = Tables(users: map<int, User>, teaCards: map<int, TeaCard>,
                           userCards: map<int, UserCard>, quests: map<int, Quest>,
                           weeklyEvents: map<int, WeeklyEvent>, achievements: map<int, Achievement>)

  predicate KeysWithin<T>(m: map<int, T>, n: int)
  {
    forall k :: k in m ==> 0 <= k < n
  }

  /** The keys of `m` below `n`, ascending. */
  function KeysBelow<T>(m: map<int, T>, n: int): (ks: seq<int>)
    ensures forall i :: 0 <= i < |ks| ==> 0 <= ks[i] < n && ks[i] in m
    ensures forall i, j :: 0 <= i < j < |ks| ==> ks[i] < ks[j]
    ensures forall k :: k in ks <==> 0 <= k < n && k in m
    decreases n
  {
    if n <= 0 then [] else KeysBelow(m, n - 1) + (if n - 1 in m then [n - 1] else [])
  }

  /** `Array.from(m.values())` for a table whose keys are all in [0, n). */
  function InKeyOrder<T>(m: map<int, T>, n: int): (r: seq<T>)
    ensures |r| == |KeysBelow(m, n)|
    ensures forall i :: 0 <= i < |r| ==> KeysBelow(m, n)[i] in m && r[i] == m[KeysBelow(m, n)[i]]
  {
    var ks := KeysBelow(m, n);
    seq(|ks|, i requires 0 <= i < |ks| => m[ks[i]])
  }

  /** Listing a table yields exactly its stored records. */
  lemma InKeyOrderValues<T>(m: map<int, T>, n: int)
    requires KeysWithin(m, n)
    ensures forall x :: x in InKeyOrder(m, n) <==> x in m.Values
  {
    var ks, vs := KeysBelow(m, n), InKeyOrder(m, n);
    forall x | x in m.Values ensures x in vs {
      var k :| k in m && m[k] == x;
      assert k in ks;
      var i :| 0 <= i < |ks| && ks[i] == k;
      assert vs[i] == x;
    }
  }

  /** Filtering a listed table keeps exactly the stored records that pass. */
  lemma FilterTable<T>(m: map<int, T>, n: int, keep: T -> bool)
    requires KeysWithin(m, n)
    ensures forall x :: x in Filter(InKeyOrder(m, n), keep) <==> x in m.Values && keep(x)
  {
    InKeyOrderValues(m, n);
    var vs := InKeyOrder(m, n);
    var r := Filter(vs, keep);
    forall x | x in r ensures x in m.Values && keep(x) {
      var i :| 0 <= i < |r| && r[i] == x;
    }
    forall x | x in m.Values && keep(x) ensures x in r {
      var i :| 0 <= i < |vs| && vs[i] == x;
    }
  }

  /** A key of the table is listed by `KeysBelow` at some position. */
  lemma KeyPosition<T>(m: map<int, T>, n: int, k: int) returns (i: nat)
    requires KeysWithin(m, n) && k in m
    ensures i < |KeysBelow(m, n)| && KeysBelow(m, n)[i] == k
    ensures i < |InKeyOrder(m, n)| && InKeyOrder(m, n)[i] == m[k]
  {
    var ks := KeysBelow(m, n);
    assert k in ks;
    i :| 0 <= i < |ks| && ks[i] == k;
  }

  /** `Array.from(m.values()).find(p)` is `undefined` exactly when no stored record passes. */
  lemma FindNoneInTable<T>(m: map<int, T>, n: int, p: T -> bool)
    requires KeysWithin(m, n)
    ensures Find(InKeyOrder(m, n), p).None? <==> forall k :: k in m ==> !p(m[k])
  {
    var vs := InKeyOrder(m, n);
    if Find(vs, p).None? {
      forall k | k in m ensures !p(m[k]) {
        var i := KeyPosition(m, n, k);
      }
    }
  }

  /** `Array.from(m.values()).find(p)`, when it finds something, finds the passing record with the smallest key. */
  lemma FindSomeInTable<T>(m: map<int, T>, n: int, p: T -> bool)
    requires KeysWithin(m, n) && Find(InKeyOrder(m, n), p).Some?
    ensures exists k :: k in m && m[k] == Find(InKeyOrder(m, n), p).value && p(m[k]) &&
                        forall j :: j in m && j < k ==> !p(m[j])
  {
    var ks, vs := KeysBelow(m, n), InKeyOrder(m, n);
    var r := Find(vs, p);
    var fi := FindIndex(vs, p);
    assert fi.Some? && r.value == vs[fi.value];
    var i := fi.value;
    var k := ks[i];
    forall j | j in m && j < k ensures !p(m[j]) {
      var i' := KeyPosition(m, n, j);
      assert i' < i;
    }
    assert m[k] == vs[i];
  }

  /** The table `rows.forEach(x => m.set(key(x), x))` builds from an empty map. */
  function Keyed<T(==)>(rows: seq<T>, key: T -> int): (m: map<int, T>)
    ensures forall k :: k in m ==> key(m[k]) == k && m[k] in rows
    ensures forall i :: 0 <= i < |rows| ==> key(rows[i]) in m
    decreases |rows|
  {
    if rows == [] then map[]
    else
      var last := rows[|rows| - 1];
      Keyed(rows[..|rows| - 1], key)[key(last) := last]
  }

  /** A table built from rows whose keys are all in [0, n) has its keys in [0, n). */
  lemma KeyedWithin<T>(rows: seq<T>, key: T -> int, n: int)
    requires forall i :: 0 <= i < |rows| ==> 0 <= key(rows[i]) < n
    ensures KeysWithin(Keyed(rows, key), n)
  {
    var m := Keyed(rows, key);
    forall k | k in m ensures 0 <= k < n {
      var i :| 0 <= i < |rows| && rows[i] == m[k];
    }
  }

  /** `{ ...user, ...updates }`: supplied fields win, unsupplied fields keep their stored value. */
  function MergeUser(u: User, p: UserPatch): (r: User)
    ensures (p.id.Some? ==> r.id == p.id.value) && (p.id.None? ==> r.id == u.id)
    ensures (p.username.Some? ==> r.username == p.username.value) && (p.username.None? ==> r.username == u.username)
    ensures (p.password.Some? ==> r.password == p.password.value) && (p.password.None? ==> r.password == u.password)
    ensures (p.level.Some? ==> r.level == p.level.value) && (p.level.None? ==> r.level == u.level)
    ensures (p.experience.Some? ==> r.experience == p.experience.value) && (p.experience.None? ==> r.experience == u.experience)
    ensures (p.coins.Some? ==> r.coins == p.coins.value) && (p.coins.None? ==> r.coins == u.coins)
  {
    User(Override(p.id, u.id), Override(p.username, u.username), Override(p.password, u.password),
         Override(p.level, u.level), Override(p.experience, u.experience), Override(p.coins, u.coins))
  }

  const NoUserChanges := UserPatch(None, None, None, None, None, None)

  /** An empty patch changes nothing, and applying the same patch twice is applying it once. */
  lemma MergeUserLaws(u: User, p: UserPatch)
    ensures MergeUser(u, NoUserChanges) == u
    ensures MergeUser(MergeUser(u, p), p) == MergeUser(u, p)
  {
  }

  /** `{ ...quest, ...updates }`: supplied fields win, unsupplied fields keep their stored value. */
  function MergeQuest(q: Quest, p: QuestPatch): (r: Quest)
    ensures (p.id.Some? ==> r.id == p.id.value) && (p.id.None? ==> r.id == q.id)
    ensures (p.title.Some? ==> r.title == p.title.value) && (p.title.None? ==> r.title == q.title)
    ensures (p.description.Some? ==> r.description == p.description.value) && (p.description.None? ==> r.description == q.description)
    ensures (p.questType.Some? ==> r.questType == p.questType.value) && (p.questType.None? ==> r.questType == q.questType)
    ensures (p.requirement.Some? ==> r.requirement == p.requirement.value) && (p.requirement.None? ==> r.requirement == q.requirement)
    ensures (p.progress.Some? ==> r.progress == p.progress.value) && (p.progress.None? ==> r.progress == q.progress)
    ensures (p.rewardXp.Some? ==> r.rewardXp == p.rewardXp.value) && (p.rewardXp.None? ==> r.rewardXp == q.rewardXp)
    ensures (p.rewardCoins.Some? ==> r.rewardCoins == p.rewardCoins.value) && (p.rewardCoins.None? ==> r.rewardCoins == q.rewardCoins)
    ensures (p.rewardCardId.Some? ==> r.rewardCardId == p.rewardCardId.value) && (p.rewardCardId.None? ==> r.rewardCardId == q.rewardCardId)
    ensures (p.isCompleted.Some? ==> r.isCompleted == p.isCompleted.value) && (p.isCompleted.None? ==> r.isCompleted == q.isCompleted)
    ensures (p.userId.Some? ==> r.userId == p.userId.value) && (p.userId.None? ==> r.userId == q.userId)
  {
    Quest(Override(p.id, q.id), Override(p.title, q.title), Override(p.description, q.description),
          Override(p.questType, q.questType), Override(p.requirement, q.requirement),
          Override(p.progress, q.progress), Override(p.rewardXp, q.rewardXp),
          Override(p.rewardCoins, q.rewardCoins), Override(p.rewardCardId, q.rewardCardId),
          Override(p.isCompleted, q.isCompleted), Override(p.userId, q.userId))
  }

  const NoQuestChanges := QuestPatch(None, None, None, None, None, None, None, None, None, None, None)

  /** An empty patch changes nothing, and applying the same patch twice is applying it once. */
  lemma MergeQuestLaws(q: Quest, p: QuestPatch)
    ensures MergeQuest(q, NoQuestChanges) == q
    ensures MergeQuest(MergeQuest(q, p), p) == MergeQuest(q, p)
  {
  }

  /** `{ ...uc, card }`: the row's own fields, with the tea card beside them. */
  function Attach(uc: UserCard, card: TeaCard): (o: OwnedCard)
    ensures o.id == uc.id && o.userId == uc.userId && o.cardId == uc.cardId && o.quantity == uc.quantity
    ensures o.card == card
  {
    OwnedCard(uc.id, uc.userId, uc.cardId, uc.quantity, card)
  }

  /** `rows.map(...)` in getUserCards: the first row whose card is missing throws. */
  function AttachCards(rows: seq<UserCard>, cards: map<int, TeaCard>): (r: Result<seq<OwnedCard>, Error>)
    ensures r.Failure? <==> exists i :: 0 <= i < |rows| && rows[i].cardId !in cards
    ensures r.Failure? ==> exists i :: 0 <= i < |rows| && rows[i].cardId !in cards &&
                                       r.error == CardNotFound(rows[i].cardId) &&
                                       forall j :: 0 <= j < i ==> rows[j].cardId in cards
    ensures r.Success? ==> |r.value| == |rows| &&
                           forall i :: 0 <= i < |rows| ==>
                             (rows[i].cardId in cards && r.value[i] == Attach(rows[i], cards[rows[i].cardId]))
  {
    match FindIndex(rows, (uc: UserCard) => uc.cardId !in cards)
    case Some(i) => Failure(CardNotFound(rows[i].cardId))
    case None =>
      Success(seq(|rows|, i requires 0 <= i < |rows| && rows[i].cardId in cards => Attach(rows[i], cards[rows[i].cardId])))
  }

  const SeedUser := User(1, "player", "password", 23, 8450, 1247)

  /** The parts the seeded image URLs share. */
  const UnsplashPhoto := "https://images.unsplash.com/photo-"
  const UnsplashIxid := "?ixlib=rb-4.0.3&ixid=MnwxMjA3fDB8MHxwaG90by1wYWdlfHx8fGVufDB8fHx8&auto=format&fit=crop&w=800&h=600"
  const UnsplashPlain := "?ixlib=rb-4.0.3&auto=format&fit=crop&w=800&h=600"

  const SeedTeaCards: seq<TeaCard> := [
    TeaCard(1, "Dragon Well Supreme", "Green Tea", "Hangzhou", "legendary", 25, "Focus",
            UnsplashPhoto + "1544787219-7f47ccb76574" + UnsplashIxid,
            "A legendary green tea with unmatched clarity and focus enhancement."),
    TeaCard(2, "Ceremonial Matcha", "Powdered Green", "Kyoto", "epic", 20, "Calm",
            UnsplashPhoto + "1515823064-d6e0c04616a7" + UnsplashIxid,
            "Traditional ceremonial matcha that brings inner peace and tranquility."),
    TeaCard(3, "Earl Grey Supreme", "Black Tea", "Ceylon", "rare", 15, "Energy",
            UnsplashPhoto + "1597318150924-b1ebb48e4c66" + UnsplashPlain,
            "A premium Earl Grey blend with bergamot that energizes the spirit."),
    TeaCard(4, "Golden Chamomile", "Herbal", "Egypt", "uncommon", 10, "Rest",
            UnsplashPhoto + "1597318150924-b1ebb48e4c66" + UnsplashPlain,
            "Soothing chamomile flowers that promote restful sleep and relaxation."),
    TeaCard(5, "Garden Green", "Green Tea", "China", "common", 5, "Health",
            UnsplashPhoto + "1556679343-c7306c1976bc" + UnsplashIxid,
            "A simple yet refreshing green tea that supports overall health."),
    TeaCard(6, "Morning Blend", "Black Tea", "India", "common", 5, "Energy",
            UnsplashPhoto + "1559056199-641a0ac8b55e" + UnsplashIxid,
            "A robust morning tea blend perfect for starting the day.")
  ]

  const SeedUserCards: seq<UserCard> := [
    UserCard(1, 1, 1, 1), UserCard(2, 1, 2, 1), UserCard(3, 1, 3, 1),
    UserCard(4, 1, 4, 1), UserCard(5, 1, 5, 2), UserCard(6, 1, 6, 1)
  ]

  const SeedQuests: seq<Quest> := [
    Quest(1, "Daily Discovery", "Find and collect 3 different green tea varieties to unlock a rare tea card.",
          "daily", 3, 2, 500, 200, 3, false, 1),
    Quest(2, "Master Collector", "Collect 25 different tea cards from various regions around the world.",
          "weekly", 25, 18, 2000, 1000, 2, false, 1)
  ]

  const SeedWeeklyEvents: seq<WeeklyEvent> := [
    WeeklyEvent(1, "Green Tea Discovery", "New Player Friendly", "monday", "18:00", 0, "free", true),
    WeeklyEvent(2, "Oolong Mastery", "Quest Registration", "tuesday", "17:00", 0, "registration", true),
    WeeklyEvent(3, "Rare Tea Hunt", "Quest Registration", "wednesday", "11:00", 300, "paid", true),
    WeeklyEvent(4, "Tea Ceremony Training", "Free", "wednesday", "18:00", 0, "free", true),
    WeeklyEvent(5, "Black Tea Adventure", "Free", "thursday", "19:00", 0, "free", true),
    WeeklyEvent(6, "Legendary Tea Quest", "Epic Rewards", "friday", "20:00", 500, "paid", true),
    WeeklyEvent(7, "Tea Tournament", "Quest Registration", "saturday", "12:00-14:00", 300, "registration", true),
    WeeklyEvent(8, "Grand Championship", "Quest Registration", "sunday", "14:00-16:00", 300, "registration", true)
  ]

  function SeedAchievements(now: Timestamp): seq<Achievement>
  {
    [ Achievement(1, 1, "Tea Master", "Collected 100 different teas", now),
      Achievement(2, 1, "First Legendary", "Obtained your first legendary tea", now) ]
  }

  function TeaCardId(c: TeaCard): int { c.id }
  function UserCardId(uc: UserCard): int { uc.id }
  function QuestId(q: Quest): int { q.id }
  function WeeklyEventId(e: WeeklyEvent): int { e.id }
  function AchievementId(a: Achievement): int { a.id }

  /** The rows' keys strictly ascend: setting them one by one inserts them in ascending key order. */
  predicate KeysAscending<T>(rows: seq<T>, key: T -> int)
  {
    forall i, j :: 0 <= i < j < |rows| ==> key(rows[i]) < key(rows[j])
  }

  /**
   * Every seed array is written in ascending id order, so the `forEach` seeding inserts each table's
   * keys in ascending order, as the ids the counter hands out later are.
   */
  lemma SeedRowsAscending(now: Timestamp)
    ensures KeysAscending(SeedTeaCards, TeaCardId) && KeysAscending(SeedUserCards, UserCardId)
    ensures KeysAscending(SeedQuests, QuestId) && KeysAscending(SeedWeeklyEvents, WeeklyEventId)
    ensures KeysAscending(SeedAchievements(now), AchievementId)
  {
    SeedTeaCardsAscending();
    SeedUserCardsAscending();
    SeedWeeklyEventsAscending();
  }

  lemma SeedUserCardsAscending()
    ensures KeysAscending(SeedUserCards, UserCardId)
  {
  }

  lemma SeedWeeklyEventsAscending()
    ensures KeysAscending(SeedWeeklyEvents, WeeklyEventId)
  {
  }

  lemma SeedTeaCardsAscending()
    ensures KeysAscending(SeedTeaCards, TeaCardId)
  {
  }

  /** The first id handed out after seeding. */
  const FirstIssuedId := 100

  /** Every seeded key lies below the first id the counter hands out. */
  lemma SeedTeaCardsWithin()
    ensures KeysWithin(Keyed(SeedTeaCards, TeaCardId), FirstIssuedId)
    ensures var m := Keyed(SeedTeaCards, TeaCardId); forall k :: k in m ==> m[k].id == k
  {
    KeyedWithin(SeedTeaCards, TeaCardId, FirstIssuedId);
  }

  lemma SeedUserCardsWithin()
    ensures KeysWithin(Keyed(SeedUserCards, UserCardId), FirstIssuedId)
    ensures var m := Keyed(SeedUserCards, UserCardId); forall k :: k in m ==> m[k].id == k
  {
    KeyedWithin(SeedUserCards, UserCardId, FirstIssuedId);
  }

  lemma SeedQuestsWithin()
    ensures KeysWithin(Keyed(SeedQuests, QuestId), FirstIssuedId)
  {
    KeyedWithin(SeedQuests, QuestId, FirstIssuedId);
  }

  lemma SeedWeeklyEventsWithin()
    ensures KeysWithin(Keyed(SeedWeeklyEvents, WeeklyEventId), FirstIssuedId)
    ensures var m := Keyed(SeedWeeklyEvents, WeeklyEventId); forall k :: k in m ==> m[k].id == k
  {
    KeyedWithin(SeedWeeklyEvents, WeeklyEventId, FirstIssuedId);
  }

  lemma SeedAchievementsWithin(now: Timestamp)
    ensures KeysWithin(Keyed(SeedAchievements(now), AchievementId), FirstIssuedId)
    ensures var m := Keyed(SeedAchievements(now), AchievementId); forall k :: k in m ==> m[k].id == k
  {
    KeyedWithin(SeedAchievements(now), AchievementId, FirstIssuedId);
  }

  /** The tables `initializeData` fills, each seed array set row by row under its own id. */
  function SeedTables(now: Timestamp): (t: Tables)
    ensures TablesWithin(t, FirstIssuedId)
  {
    SeedTeaCardsWithin();
    SeedUserCardsWithin();
    SeedQuestsWithin();
    SeedWeeklyEventsWithin();
    SeedAchievementsWithin(now);
    Tables(map[1 := SeedUser],
           Keyed(SeedTeaCards, TeaCardId),
           Keyed(SeedUserCards, UserCardId),
           Keyed(SeedQuests, QuestId),
           Keyed(SeedWeeklyEvents, WeeklyEventId),
           Keyed(SeedAchievements(now), AchievementId))
  }

  /**
   * What every table keeps while the counter stands at `n`: its keys lie in [0, n), and the
   * tables without an update operation hold each record under its own id.
   */
  ghost predicate TablesWithin(t: Tables, n: int)
  {
    && KeysWithin(t.users, n) && KeysWithin(t.teaCards, n) && KeysWithin(t.userCards, n)
    && KeysWithin(t.quests, n) && KeysWithin(t.weeklyEvents, n) && KeysWithin(t.achievements, n)
    && (forall k :: k in t.teaCards ==> t.teaCards[k].id == k)
    && (forall k :: k in t.userCards ==> t.userCards[k].id == k)
    && (forall k :: k in t.weeklyEvents ==> t.weeklyEvents[k].id == k)
    && (forall k :: k in t.achievements ==> t.achievements[k].id == k)
  }

  /** `s` is strictly increasing and every element lies in [lo, hi). */
  ghost predicate AscendingWithin(s: seq<int>, lo: int, hi: int)
  {
    && (forall i, j :: 0 <= i < j < |s| ==> s[i] < s[j])
    && (forall i :: 0 <= i < |s| ==> lo <= s[i] < hi)
  }

  /**
   * The store's invariant, on values: the counter has passed the seeded ids, every table keeps its
   * keys below it, and the ids it handed out since seeding ascend within [FirstIssuedId, counter).
   */
  ghost predicate ValidState(t: Tables, counter: int, issued: seq<int>)
  {
    FirstIssuedId <= counter && TablesWithin(t, counter) && AscendingWithin(issued, FirstIssuedId, counter)
  }

  /** The seeded store satisfies the invariant. */
  lemma SeedValid(now: Timestamp)
    ensures ValidState(SeedTables(now), FirstIssuedId, [])
  {
  }

  class MemStorage {
    var users: map<int, User>
    var teaCards: map<int, TeaCard>
    var userCards: map<int, UserCard>
    var quests: map<int, Quest>
    var weeklyEvents: map<int, WeeklyEvent>
    var achievements: map<int, Achievement>
    var currentId: int

    /** Every id the counter has handed out since seeding, in the order it handed them out. */
    ghost var Issued: seq<int>

    ghost predicate Valid()
      reads this
    {
      ValidState(Snapshot(), currentId, Issued)
    }

    ghost function Snapshot(): Tables
      reads this
    {
      Tables(users, teaCards, userCards, quests, weeklyEvents, achievements)
    }

    /** The constructor with `initializeData`; `now` is the `new Date()` of the two seeded achievements. */
    constructor (now: Timestamp)
      ensures Valid()
      ensures Snapshot() == SeedTables(now)
      ensures currentId == FirstIssuedId && Issued == []
    {
      users, teaCards, userCards, quests, weeklyEvents, achievements := map[], map[], map[], map[], map[], map[];
      currentId := 1;
      new;
      InitializeData(SeedTables(now));
    }

    /**
     * `initializeData`, given the tables its seed arrays build: every table is filled, then the
     * counter moves to 100.
     */
    method InitializeData(t: Tables)
      requires TablesWithin(t, FirstIssuedId)
      modifies this
      ensures Valid()
      ensures Snapshot() == t
      ensures currentId == FirstIssuedId && Issued == []
    {
      users, teaCards, userCards := t.users, t.teaCards, t.userCards;
      quests, weeklyEvents, achievements := t.quests, t.weeklyEvents, t.achievements;
      currentId := FirstIssuedId;
      Issued := [];
    }

    /** `this.currentId++`: the id handed out is new to every table and above every earlier one. */
    method NextId() returns (id: int)
      requires Valid()
      modifies this
      ensures Valid() && Snapshot() == old(Snapshot())
      ensures id == old(currentId) && currentId == id + 1 && Issued == old(Issued) + [id]
      ensures FirstIssuedId <= id
      ensures id !in users && id !in teaCards && id !in userCards
      ensures id !in quests && id !in weeklyEvents && id !in achievements
    {
      id := currentId;
      currentId := currentId + 1;
      Issued := Issued + [id];
    }

    function GetUser(id: int): (r: Option<User>)
      reads this
      ensures r.Some? <==> id in users
      ensures r.Some? ==> r.value == users[id]
    {
      if id in users then Some(users[id]) else None
    }

    /** The user with that username and the smallest key, if any. */
    function GetUserByUsername(username: string): (r: Option<User>)
      reads this
      requires Valid()
      ensures r.None? <==> forall k :: k in users ==> users[k].username != username
      ensures r.Some? ==> exists k :: k in users && users[k] == r.value && r.value.username == username &&
                                      forall j :: j in users && j < k ==> users[j].username != username
    {
      var named := (u: User) => u.username == username;
      FindNoneInTable(users, currentId, named);
      if Find(InKeyOrder(users, currentId), named).Some? then
        FindSomeInTable(users, currentId, named);
        Find(InKeyOrder(users, currentId), named)
      else
        None
    }

    method CreateUser(insertUser: NewUser) returns (user: User)
      requires Valid()
      modifies this
      ensures Valid()
      ensures user == User(old(currentId), insertUser.username, insertUser.password, 1, 0, 0)
      ensures old(currentId) !in old(users)
      ensures Snapshot() == old(Snapshot()).(users := old(users)[user.id := user])
      ensures currentId == old(currentId) + 1 && Issued == old(Issued) + [user.id]
      ensures GetUser(user.id) == Some(user)
    {
      var id := NextId();
      user := User(id, insertUser.username, insertUser.password, 1, 0, 0);
      users := users[id := user];
    }

    method UpdateUser(id: int, updates: UserPatch) returns (r: Result<User, Error>)
      requires Valid()
      modifies this
      ensures Valid()
      ensures id !in old(users) ==> r == Failure(UserNotFound) && unchanged(this)
      ensures id in old(users) ==>
                && r == Success(MergeUser(old(users)[id], updates))
                && Snapshot() == old(Snapshot()).(users := old(users)[id := r.value])
                && currentId == old(currentId) && Issued == old(Issued)
    {
      if id !in users {
        return Failure(UserNotFound);
      }
      var updatedUser := MergeUser(users[id], updates);
      users := users[id := updatedUser];
      r := Success(updatedUser);
    }

    /** `Array.from(this.teaCards.values())`. */
    function GetAllTeaCards(): (r: seq<TeaCard>)
      reads this
      requires Valid()
      ensures forall c :: c in r <==> c in teaCards.Values
      ensures forall i, j :: 0 <= i < j < |r| ==> r[i].id < r[j].id
    {
      InKeyOrderValues(teaCards, currentId);
      InKeyOrder(teaCards, currentId)
    }

    function GetTeaCard(id: int): (r: Option<TeaCard>)
      reads this
      requires Valid()
      ensures r.Some? <==> id in teaCards
      ensures r.Some? ==> r.value == teaCards[id] && r.value.id == id
    {
      if id in teaCards then Some(teaCards[id]) else None
    }

    method CreateTeaCard(insertCard: NewTeaCard) returns (card: TeaCard)
      requires Valid()
      modifies this
      ensures Valid()
      ensures card == TeaCard(old(currentId), insertCard.name, insertCard.teaType, insertCard.origin,
                              insertCard.rarity, insertCard.power, insertCard.powerType,
                              insertCard.imageUrl, insertCard.description)
      ensures old(currentId) !in old(teaCards)
      ensures Snapshot() == old(Snapshot()).(teaCards := old(teaCards)[card.id := card])
      ensures currentId == old(currentId) + 1 && Issued == old(Issued) + [card.id]
    {
      var id := NextId();
      card := TeaCard(id, insertCard.name, insertCard.teaType, insertCard.origin, insertCard.rarity,
                      insertCard.power, insertCard.powerType, insertCard.imageUrl, insertCard.description);
      teaCards := teaCards[id := card];
    }

    /** The user's card rows, in insertion order. */
    function UserCardRows(userId: int): (rows: seq<UserCard>)
      reads this
      requires Valid()
      ensures forall uc :: uc in rows <==> uc in userCards.Values && uc.userId == userId
      ensures IsSubsequence(rows, InKeyOrder(userCards, currentId))
      ensures forall uc :: multiset(rows)[uc] == if uc.userId == userId then multiset(InKeyOrder(userCards, currentId))[uc] else 0
    {
      var owned := (uc: UserCard) => uc.userId == userId;
      FilterTable(userCards, currentId, owned);
      FilterCounts(InKeyOrder(userCards, currentId), owned);
      Filter(InKeyOrder(userCards, currentId), owned)
    }

    /** `getUserCards`: each of the user's rows with its tea card, or the error for the first row whose card is missing. */
    function GetUserCards(userId: int): (r: Result<seq<OwnedCard>, Error>)
      reads this
      requires Valid()
      ensures var rows := UserCardRows(userId);
        && (r.Failure? <==> exists i :: 0 <= i < |rows| && rows[i].cardId !in teaCards)
        && (r.Failure? ==> exists i :: 0 <= i < |rows| && rows[i].cardId !in teaCards &&
                                       r.error == CardNotFound(rows[i].cardId) &&
                                       forall j :: 0 <= j < i ==> rows[j].cardId in teaCards)
        && (r.Success? ==> |r.value| == |rows| &&
                           forall i :: 0 <= i < |rows| ==>
                             && r.value[i] == Attach(rows[i], teaCards[rows[i].cardId])
                             && r.value[i].card.id == r.value[i].cardId)
    {
      AttachCards(UserCardRows(userId), teaCards)
    }

    /** `addUserCard`: always a new row under a new id, even when the user already holds that card. */
    method AddUserCard(insertUserCard: NewUserCard) returns (userCard: UserCard)
      requires Valid()
      modifies this
      ensures Valid()
      ensures userCard == UserCard(old(currentId), insertUserCard.userId, insertUserCard.cardId, insertUserCard.quantity)
      ensures old(currentId) !in old(userCards)
      ensures Snapshot() == old(Snapshot()).(userCards := old(userCards)[userCard.id := userCard])
      ensures currentId == old(currentId) + 1 && Issued == old(Issued) + [userCard.id]
      ensures forall k :: k in old(userCards) ==> k in userCards && userCards[k] == old(userCards)[k]
    {
      var id := NextId();
      userCard := UserCard(id, insertUserCard.userId, insertUserCard.cardId, insertUserCard.quantity);
      userCards := userCards[id := userCard];
    }

    function GetUserQuests(userId: int): (r: seq<Quest>)
      reads this
      requires Valid()
      ensures forall q :: q in r <==> q in quests.Values && q.userId == userId
      ensures IsSubsequence(r, InKeyOrder(quests, currentId))
      ensures forall q :: multiset(r)[q] == if q.userId == userId then multiset(InKeyOrder(quests, currentId))[q] else 0
    {
      var owned := (q: Quest) => q.userId == userId;
      FilterTable(quests, currentId, owned);
      FilterCounts(InKeyOrder(quests, currentId), owned);
      Filter(InKeyOrder(quests, currentId), owned)
    }

    /** `createQuest`: progress starts at 0 and the quest incomplete, whatever the input says. */
    method CreateQuest(insertQuest: NewQuest) returns (quest: Quest)
      requires Valid()
      modifies this
      ensures Valid()
      ensures quest == Quest(old(currentId), insertQuest.title, insertQuest.description, insertQuest.questType,
                             insertQuest.requirement, 0, insertQuest.rewardXp, insertQuest.rewardCoins,
                             insertQuest.rewardCardId, false, insertQuest.userId)
      ensures quest.progress == 0 && !quest.isCompleted
      ensures old(currentId) !in old(quests)
      ensures Snapshot() == old(Snapshot()).(quests := old(quests)[quest.id := quest])
      ensures currentId == old(currentId) + 1 && Issued == old(Issued) + [quest.id]
    {
      var id := NextId();
      quest := Quest(id, insertQuest.title, insertQuest.description, insertQuest.questType,
                     insertQuest.requirement, 0, insertQuest.rewardXp, insertQuest.rewardCoins,
                     insertQuest.rewardCardId, false, insertQuest.userId);
      quests := quests[id := quest];
    }

    method UpdateQuest(id: int, updates: QuestPatch) returns (r: Result<Quest, Error>)
      requires Valid()
      modifies this
      ensures Valid()
      ensures id !in old(quests) ==> r == Failure(QuestNotFound) && unchanged(this)
      ensures id in old(quests) ==>
                && r == Success(MergeQuest(old(quests)[id], updates))
                && Snapshot() == old(Snapshot()).(quests := old(quests)[id := r.value])
                && currentId == old(currentId) && Issued == old(Issued)
    {
      if id !in quests {
        return Failure(QuestNotFound);
      }
      var updatedQuest := MergeQuest(quests[id], updates);
      quests := quests[id := updatedQuest];
      r := Success(updatedQuest);
    }

    /** `getWeeklyEvents`: the active events, in insertion order. */
    function GetWeeklyEvents(): (r: seq<WeeklyEvent>)
      reads this
      requires Valid()
      ensures forall e :: e in r <==> e in weeklyEvents.Values && e.isActive
      ensures IsSubsequence(r, InKeyOrder(weeklyEvents, currentId))
      ensures forall e :: multiset(r)[e] == if e.isActive then multiset(InKeyOrder(weeklyEvents, currentId))[e] else 0
    {
      var active := (e: WeeklyEvent) => e.isActive;
      FilterTable(weeklyEvents, currentId, active);
      FilterCounts(InKeyOrder(weeklyEvents, currentId), active);
      Filter(InKeyOrder(weeklyEvents, currentId), active)
    }

    method CreateWeeklyEvent(insertEvent: NewWeeklyEvent) returns (event: WeeklyEvent)
      requires Valid()
      modifies this
      ensures Valid()
      ensures event == WeeklyEvent(old(currentId), insertEvent.title, insertEvent.description, insertEvent.dayOfWeek,
                                   insertEvent.time, insertEvent.cost, insertEvent.eventType, insertEvent.isActive)
      ensures old(currentId) !in old(weeklyEvents)
      ensures Snapshot() == old(Snapshot()).(weeklyEvents := old(weeklyEvents)[event.id := event])
      ensures currentId == old(currentId) + 1 && Issued == old(Issued) + [event.id]
    {
      var id := NextId();
      event := WeeklyEvent(id, insertEvent.title, insertEvent.description, insertEvent.dayOfWeek,
                           insertEvent.time, insertEvent.cost, insertEvent.eventType, insertEvent.isActive);
      weeklyEvents := weeklyEvents[id := event];
    }

    function GetUserAchievements(userId: int): (r: seq<Achievement>)
      reads this
      requires Valid()
      ensures forall a :: a in r <==> a in achievements.Values && a.userId == userId
      ensures IsSubsequence(r, InKeyOrder(achievements, currentId))
      ensures forall a :: multiset(r)[a] == if a.userId == userId then multiset(InKeyOrder(achievements, currentId))[a] else 0
    {
      var owned := (a: Achievement) => a.userId == userId;
      FilterTable(achievements, currentId, owned);
      FilterCounts(InKeyOrder(achievements, currentId), owned);
      Filter(InKeyOrder(achievements, currentId), owned)
    }

    /** `createAchievement`; `now` is the `new Date()` stamped on it. */
    method CreateAchievement(insertAchievement: NewAchievement, now: Timestamp) returns (achievement: Achievement)
      requires Valid()
      modifies this
      ensures Valid()
      ensures achievement == Achievement(old(currentId), insertAchievement.userId, insertAchievement.title,
                                         insertAchievement.description, now)
      ensures old(currentId) !in old(achievements)
      ensures Snapshot() == old(Snapshot()).(achievements := old(achievements)[achievement.id := achievement])
      ensures currentId == old(currentId) + 1 && Issued == old(Issued) + [achievement.id]
    {
      var id := NextId();
      achievement := Achievement(id, insertAchievement.userId, insertAchievement.title,
                                 insertAchievement.description, now);
      achievements := achievements[id := achievement];
    }
  }
}
