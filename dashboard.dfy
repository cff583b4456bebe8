/** The data assembly of the dashboard home page (`DashboardHome` in
    src/components/Dashboard.tsx): the statistics shown, the achievement list
    with the user's unlocked ones marked, the "recent activity" list and the
    relative dates next to its entries. */
module Dashboard {
  import opened Options
  import opened Numeric
  import opened Sorting
  import opened Scoring

  /** The statistics shown for a stored row (`Number(x) || default`): a
      null or zero level shows 1, every other null or zero field shows 0;
      without a row everything is 0 except the level, 1. */
  function CoerceStats(row: Option<StoredStats>): (s: Stats)
    ensures row.None? ==> s == Stats(1, 0, 0, 0, 0, 0)
    ensures s.level != 0
    ensures row.Some? ==> s.level == 1 || row.value.level == Some(s.level)
    ensures row.Some? && row.value.level.Some? && row.value.level.value != 0 ==>
      s.level == row.value.level.value
    ensures row.Some? ==>
      && s.exp == row.value.exp.GetOr(0) && s.wordsTyped == row.value.wordsTyped.GetOr(0)
      && s.timeSpent == row.value.timeSpent.GetOr(0) && s.wpm == row.value.wpm.GetOr(0)
      && s.accuracy == row.value.accuracy.GetOr(0)
  {
    match row
    case None => Stats(1, 0, 0, 0, 0, 0)
    case Some(r) =>
      Stats(OrDefault(r.level, 1), OrDefault(r.exp, 0), OrDefault(r.wordsTyped, 0),
            OrDefault(r.timeSpent, 0), OrDefault(r.wpm, 0), OrDefault(r.accuracy, 0))
  }

  /** A row of the `achievements` table. */
  datatype AchievementRow = AchievementRow(id: string, name: string, description: string, icon: string)

  /** A row of `user_achievements`: which achievement, unlocked when (ms). */
  datatype UnlockedRow = UnlockedRow(achievementId: string, unlockedAt: int)

  /** An achievement as the page lists it. */
  datatype Achievement = Achievement(id: string, name: string, description: string, icon: string, unlocked: bool)

  function UnlockedIds(unlocked: seq<UnlockedRow>): set<string>
  {
    set k | 0 <= k < |unlocked| :: unlocked[k].achievementId
  }

  /** Every achievement, in the same order, marked unlocked exactly when
      the user has a row for its id. */
  function MergeAchievements(all: seq<AchievementRow>, unlocked: seq<UnlockedRow>): (merged: seq<Achievement>)
    ensures |merged| == |all|
    ensures forall i :: 0 <= i < |all| ==>
      && merged[i].id == all[i].id && merged[i].name == all[i].name
      && merged[i].description == all[i].description && merged[i].icon == all[i].icon
    ensures forall i :: 0 <= i < |all| ==>
      (merged[i].unlocked <==> exists k :: 0 <= k < |unlocked| && unlocked[k].achievementId == all[i].id)
  {
    var ids := UnlockedIds(unlocked);
    seq(|all|, i requires 0 <= i < |all| =>
      Achievement(all[i].id, all[i].name, all[i].description, all[i].icon, all[i].id in ids))
  }

  /** The sort comparator `(a, b) => time(b) - time(a)` puts `a` no later
      than `b` when it is not older. */
  predicate NotOlder(a: UnlockedRow, b: UnlockedRow)
  {
    b.unlockedAt - a.unlockedAt <= 0
  }

  /** Rows ordered newest first. */
  predicate NewestFirst(rows: seq<UnlockedRow>)
  {
    forall i, j :: 0 <= i < j < |rows| ==> rows[i].unlockedAt >= rows[j].unlockedAt
  }

  /** The at most three most recently unlocked rows: the rows sorted
      newest first, cut after the third. */
  function RecentUnlocked(unlocked: seq<UnlockedRow>): (recent: seq<UnlockedRow>)
    ensures |recent| == if |unlocked| < 3 then |unlocked| else 3
    ensures NewestFirst(recent)
    ensures forall r :: r in recent ==> r in unlocked
    ensures KeepsNewest(recent, unlocked)
  {
    var sorted := SortBy(unlocked, NotOlder);
    SortedNewestFirst(unlocked);
    var n := if |sorted| < 3 then |sorted| else 3;
    forall r | r in sorted[..n]
      ensures r in unlocked
    {
      assert r in multiset(sorted);
    }
    PrefixKeepsNewest(sorted, unlocked, n);
    sorted[..n]
  }

  /** `recent` is drawn from `unlocked` (as a multiset) and no row left
      out of it is newer than a row in it. */
  predicate KeepsNewest(recent: seq<UnlockedRow>, unlocked: seq<UnlockedRow>)
  {
    && multiset(recent) <= multiset(unlocked)
    && forall r, x :: r in recent && x in multiset(unlocked) - multiset(recent) ==>
         x.unlockedAt <= r.unlockedAt
  }

  lemma PrefixKeepsNewest(sorted: seq<UnlockedRow>, unlocked: seq<UnlockedRow>, n: nat)
    requires NewestFirst(sorted) && multiset(sorted) == multiset(unlocked) && n <= |sorted|
    ensures KeepsNewest(sorted[..n], unlocked)
  {
    assert sorted == sorted[..n] + sorted[n..];
    assert multiset(unlocked) - multiset(sorted[..n]) == multiset(sorted[n..]);
    forall r, x | r in sorted[..n] && x in multiset(sorted[n..])
      ensures x.unlockedAt <= r.unlockedAt
    {
      var i :| 0 <= i < n && sorted[i] == r;
      var j :| 0 <= j < |sorted| - n && sorted[n..][j] == x;
      assert sorted[n + j] == x;
    }
  }

  lemma SortedNewestFirst(unlocked: seq<UnlockedRow>)
    ensures NewestFirst(SortBy(unlocked, NotOlder))
  {
    var sorted := SortBy(unlocked, NotOlder);
    assert Total(NotOlder) && Transitive(NotOlder);
    SortBySorted(unlocked, NotOlder);
    forall i, j | 0 <= i < j < |sorted|
      ensures sorted[i].unlockedAt >= sorted[j].unlockedAt
    {
      assert NotOlder(sorted[i], sorted[j]);
    }
  }

  /** `allAchievements.find(...)`: the first achievement with the id. */
  function Find(all: seq<AchievementRow>, id: string): (found: Option<AchievementRow>)
    ensures found.None? <==> forall i :: 0 <= i < |all| ==> all[i].id != id
    ensures found.Some? ==> found.value in all && found.value.id == id
    ensures found.Some? ==>
      exists i :: 0 <= i < |all| && all[i] == found.value && (forall j :: 0 <= j < i ==> all[j].id != id)
  {
    if all == [] then None
    else if all[0].id == id then Some(all[0])
    else
      var rest := Find(all[1..], id);
      assert forall i :: 0 < i < |all| ==> all[i] == all[1..][i - 1];
      if rest.Some? then
        var k :| 0 <= k < |all[1..]| && all[1..][k] == rest.value
          && forall j :: 0 <= j < k ==> all[1..][j].id != id;
        assert all[k + 1] == rest.value && forall j :: 0 <= j < k + 1 ==> all[j].id != id;
        rest
      else rest
  }

  /** An entry of the recent-activity list; timestamps are in ms. */
  datatype Activity =
    | UnlockedAchievement(name: string, timestamp: int)
    | TypedWords(count: int, timestamp: int)
    | ReachedLevel(level: int, timestamp: int)
    | Joined(timestamp: int)

  /** The activity for one unlocked row: none when its id is not in the
      achievement list. */
  function ActivityFor(row: UnlockedRow, all: seq<AchievementRow>): (acts: seq<Activity>)
    ensures |acts| <= 1
    ensures acts != [] <==> exists i :: 0 <= i < |all| && all[i].id == row.achievementId
    ensures acts != [] ==> acts[0].UnlockedAchievement? && acts[0].timestamp == row.unlockedAt
    ensures acts != [] ==>
      Find(all, row.achievementId).Some? && acts[0].name == Find(all, row.achievementId).value.name
  {
    match Find(all, row.achievementId)
    case Some(a) => [UnlockedAchievement(a.name, row.unlockedAt)]
    case None => []
  }

  /** The achievement activities of some unlocked rows, in their order. */
  function AchievementActivities(rows: seq<UnlockedRow>, all: seq<AchievementRow>): (acts: seq<Activity>)
    ensures |acts| <= |rows|
    ensures forall i :: 0 <= i < |acts| ==> acts[i].UnlockedAchievement?
  {
    if rows == [] then []
    else AchievementActivities(rows[..|rows| - 1], all) + ActivityFor(rows[|rows| - 1], all)
  }

  /** The typing and level activities, added when there are fewer than
      three achievement activities and a statistics row: the typing one when
      the raw words typed is positive, the level one when the raw level is
      above 1. */
  function StatsActivities(achievementCount: nat, row: Option<StoredStats>): (acts: seq<Activity>)
    ensures |acts| <= 2
    ensures achievementCount >= 3 || row.None? ==> acts == []
    ensures forall i :: 0 <= i < |acts| ==> !acts[i].UnlockedAchievement? && !acts[i].Joined?
    ensures achievementCount < 3 && row.Some? ==>
      (TypedWords(row.value.wordsTyped.GetOr(0), row.value.updatedAt) in acts <==>
         row.value.wordsTyped.Some? && row.value.wordsTyped.value > 0)
    ensures achievementCount < 3 && row.Some? ==>
      (ReachedLevel(row.value.level.GetOr(0), row.value.updatedAt) in acts <==>
         row.value.level.Some? && row.value.level.value > 1)
    ensures forall i :: 0 <= i < |acts| ==> acts[i].timestamp == row.value.updatedAt
    ensures forall i, j :: 0 <= i < j < |acts| ==> acts[i].TypedWords? && acts[j].ReachedLevel?
  {
    if achievementCount < 3 && row.Some? then
      var r := row.value;
      (if r.wordsTyped.Some? && r.wordsTyped.value > 0 then [TypedWords(r.wordsTyped.value, r.updatedAt)] else [])
      + (if r.level.Some? && r.level.value > 1 then [ReachedLevel(r.level.value, r.updatedAt)] else [])
    else []
  }

  /** The recent-activity list: an activity for each of the three most
      recent unlocks whose achievement is known, then the statistics
      activities, and a single "joined" entry at `now` when that leaves the
      list empty. It is never empty and has at most four entries. */
  function ActivityList(all: seq<AchievementRow>, unlocked: seq<UnlockedRow>,
                        row: Option<StoredStats>, now: int): (acts: seq<Activity>)
    ensures 1 <= |acts| <= 4
    ensures acts[0].Joined? <==> acts == [Joined(now)]
    ensures acts == [Joined(now)] <==>
      AchievementActivities(RecentUnlocked(unlocked), all) == [] && StatsActivities(0, row) == []
  {
    var unlocks := AchievementActivities(RecentUnlocked(unlocked), all);
    var others := unlocks + StatsActivities(|unlocks|, row);
    if others == [] then [Joined(now)] else
      assert others[0] == if unlocks != [] then unlocks[0] else StatsActivities(|unlocks|, row)[0];
      others
  }

  /** The unlock times of some rows. */
  function Times(rows: seq<UnlockedRow>): set<int>
  {
    set r | r in rows :: r.unlockedAt
  }

  /** Activities ordered newest first. */
  predicate LatestFirst(acts: seq<Activity>)
  {
    forall i, j :: 0 <= i < j < |acts| ==> acts[i].timestamp >= acts[j].timestamp
  }

  /** Every activity carries the time of one of the rows. */
  predicate TimedFrom(acts: seq<Activity>, rows: seq<UnlockedRow>)
  {
    forall i :: 0 <= i < |acts| ==> acts[i].timestamp in Times(rows)
  }

  /** The achievement activities keep the newest-first order of the rows
      they come from, and each carries the time of one of them. */
  lemma {:induction false} AchievementActivitiesNewestFirst(rows: seq<UnlockedRow>, all: seq<AchievementRow>)
    requires NewestFirst(rows)
    ensures LatestFirst(AchievementActivities(rows, all))
    ensures TimedFrom(AchievementActivities(rows, all), rows)
  {
    if rows != [] {
      var front := rows[..|rows| - 1];
      var last := rows[|rows| - 1];
      AchievementActivitiesNewestFirst(front, all);
      var head := AchievementActivities(front, all);
      var tail := ActivityFor(last, all);
      var acts := head + tail;
      assert acts == AchievementActivities(rows, all);
      forall t | t in Times(front)
        ensures t in Times(rows) && t >= last.unlockedAt
      {
        var r :| r in front && r.unlockedAt == t;
        var k :| 0 <= k < |front| && front[k] == r;
        assert rows[k] == r;
      }
      assert last.unlockedAt in Times(rows);
      forall i | 0 <= i < |acts|
        ensures acts[i].timestamp in Times(rows)
        ensures i < |head| ==> acts[i].timestamp >= last.unlockedAt
      {
        if i < |head| {
          assert acts[i] == head[i];
          assert head[i].timestamp in Times(front);
        } else {
          assert acts[i] == tail[0];
        }
      }
      forall i, j | 0 <= i < j < |acts|
        ensures acts[i].timestamp >= acts[j].timestamp
      {
        if j < |head| {
          assert acts[i] == head[i] && acts[j] == head[j];
        } else {
          assert acts[j] == tail[0];
        }
      }
    }
  }

  /** The achievement entries of the list come first, newest first, and
      each carries the time of one of the user's unlocks. */
  lemma ActivityListNewestFirst(all: seq<AchievementRow>, unlocked: seq<UnlockedRow>,
                                row: Option<StoredStats>, now: int)
    ensures var acts := ActivityList(all, unlocked, row, now);
      forall i, j :: 0 <= i < j < |acts| && acts[j].UnlockedAchievement? ==>
        acts[i].UnlockedAchievement? && acts[i].timestamp >= acts[j].timestamp
    ensures var acts := ActivityList(all, unlocked, row, now);
      forall i :: 0 <= i < |acts| && acts[i].UnlockedAchievement? ==> acts[i].timestamp in Times(unlocked)
  {
    var recent := RecentUnlocked(unlocked);
    AchievementActivitiesNewestFirst(recent, all);
    var unlocks := AchievementActivities(recent, all);
    var extra := StatsActivities(|unlocks|, row);
    var acts := ActivityList(all, unlocked, row, now);
    if unlocks + extra != [] {
      assert acts == unlocks + extra;
      forall i | 0 <= i < |acts| && acts[i].UnlockedAchievement?
        ensures i < |unlocks| && acts[i] == unlocks[i]
        ensures acts[i].timestamp in Times(unlocked)
      {
        var r :| r in recent && r.unlockedAt == acts[i].timestamp;
      }
    }
  }

  /** The loop of `fetchUserData` over the recent unlocks: an activity for
      each one whose achievement is in the list, in their order. */
  method UnlockActivities(recent: seq<UnlockedRow>, all: seq<AchievementRow>) returns (acts: seq<Activity>)
    ensures acts == AchievementActivities(recent, all)
  {
    acts := [];
    for k := 0 to |recent|
      invariant acts == AchievementActivities(recent[..k], all)
    {
      assert recent[..k + 1][..k] == recent[..k];
      assert AchievementActivities(recent[..k + 1], all)
          == AchievementActivities(recent[..k], all) + ActivityFor(recent[k], all);
      var found := Find(all, recent[k].achievementId);
      if found.Some? {
        acts := acts + [UnlockedAchievement(found.value.name, recent[k].unlockedAt)];
      }
    }
    assert recent[..|recent|] == recent;
  }

  /** The pushes of `fetchUserData` after the loop: the typing and level
      activities of the statistics row, when fewer than three activities
      precede them. */
  method AppendStatsActivities(unlocks: seq<Activity>, row: Option<StoredStats>) returns (acts: seq<Activity>)
    ensures acts == unlocks + StatsActivities(|unlocks|, row)
  {
    acts := unlocks;
    if |acts| < 3 && row.Some? {
      var r := row.value;
      ghost var typed := if r.wordsTyped.Some? && r.wordsTyped.value > 0
                         then [TypedWords(r.wordsTyped.value, r.updatedAt)] else [];
      ghost var reached := if r.level.Some? && r.level.value > 1
                           then [ReachedLevel(r.level.value, r.updatedAt)] else [];
      if r.wordsTyped.Some? && r.wordsTyped.value > 0 {
        acts := acts + [TypedWords(r.wordsTyped.value, r.updatedAt)];
      }
      assert acts == unlocks + typed;
      if r.level.Some? && r.level.value > 1 {
        acts := acts + [ReachedLevel(r.level.value, r.updatedAt)];
      }
      assert acts == unlocks + typed + reached;
      assert StatsActivities(|unlocks|, row) == typed + reached;
    } else {
      assert StatsActivities(|unlocks|, row) == [];
    }
  }

  /** `fetchUserData`'s recent-activity list: the unlock activities, then
      the statistics ones, then the "joined" entry when nothing else. */
  method RecentActivity(all: seq<AchievementRow>, unlocked: seq<UnlockedRow>,
                        row: Option<StoredStats>, now: int) returns (acts: seq<Activity>)
    ensures acts == ActivityList(all, unlocked, row, now)
  {
    var recent := RecentUnlocked(unlocked);
    acts := UnlockActivities(recent, all);
    acts := AppendStatsActivities(acts, row);
    if |acts| == 0 {
      acts := acts + [Joined(now)];
    }
  }

  /** What the achievement part of the page shows: nothing when the
      achievement list could not be read; a failed read of the user's
      unlocked rows counts as none. */
  method AchievementPanel(all: Option<seq<AchievementRow>>, unlocked: Option<seq<UnlockedRow>>,
                          row: Option<StoredStats>, now: int)
    returns (merged: Option<seq<Achievement>>, activity: Option<seq<Activity>>)
    ensures all.None? <==> merged.None?
    ensures merged.None? <==> activity.None?
    ensures all.Some? ==> merged.value == MergeAchievements(all.value, unlocked.GetOr([]))
    ensures all.Some? ==> activity.value == ActivityList(all.value, unlocked.GetOr([]), row, now)
  {
    if all.None? {
      return None, None;
    }
    var rows := unlocked.GetOr([]);
    merged := Some(MergeAchievements(all.value, rows));
    var acts := RecentActivity(all.value, rows, row, now);
    activity := Some(acts);
  }

  const MsPerDay := 86400000

  /** The label of a date relative to now. */
  datatype RelativeTime = Today | Yesterday | DaysAgo(days: int) | OnDate(ms: int)

  /** `getRelativeTime`: whole days elapsed, rounded down, name the label:
      0 is today, 1 yesterday, any other count below 7 (a date in the future
      too) "N days ago", and anything older the date itself. */
  function GetRelativeTime(nowMs: int, dateMs: int): (r: RelativeTime)
    ensures r == Today <==> 0 <= nowMs - dateMs < MsPerDay
    ensures r == Yesterday <==> MsPerDay <= nowMs - dateMs < 2 * MsPerDay
    ensures r.OnDate? <==> nowMs - dateMs >= 7 * MsPerDay
    ensures r.OnDate? ==> r.ms == dateMs
    ensures r.DaysAgo? ==>
      && r.days * MsPerDay <= nowMs - dateMs < (r.days + 1) * MsPerDay
      && r.days < 7 && r.days != 0 && r.days != 1
  {
    var days := (nowMs - dateMs) / MsPerDay;
    if days == 0 then Today
    else if days == 1 then Yesterday
    else if days < 7 then DaysAgo(days)
    else OnDate(dateMs)
  }
}
