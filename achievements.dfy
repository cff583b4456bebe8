/** Detection of newly unlocked achievements after a statistics write
    (`checkNewAchievements`, src/components/TypingGame.tsx). */
module Achievements {
  import opened Options

  /** An achievement's details as the `achievements` table returns them. */
  datatype AchievementInfo = AchievementInfo(id: string, name: string, description: string, icon: string)

  /** The result of one check: the ids found new, the achievement to show
      (if any), and the set of ids known afterwards. */
  datatype CheckResult = CheckResult(newIds: set<string>, shown: Option<AchievementInfo>, known: set<string>)

  /** The ids of a `user_achievements` query result, as a set. */
  function IdSet(ids: seq<string>): (s: set<string>)
    ensures forall id :: id in s <==> id in ids
  {
    set id | id in ids
  }

  /** One check against the stores. `known` is the set of ids seen before;
      `current` is the user's unlocked ids, or None when that query failed;
      `details` is the answer of the details query, which is only made when
      there are new ids, or None when it failed.
      Nothing happens without a signed-in user or when the first query fails.
      The new ids are the current ids not known before. When there are new
      ids and their details query fails, the check stops there: the known set
      is kept, so the same ids are found again next time. Otherwise the first
      detail record, if any, is shown, and the known set becomes the current
      one. */
  function Check(known: set<string>, signedIn: bool, current: Option<seq<string>>,
                 details: Option<seq<AchievementInfo>>): (r: CheckResult)
    ensures !signedIn || current.None? ==> r == CheckResult({}, None, known)
    ensures signedIn && current.Some? ==>
      forall id :: id in r.newIds <==> id in current.value && id !in known
    ensures r.known == known || (signedIn && current.Some? && r.known == IdSet(current.value))
    ensures r.known != known ==> details.Some? || r.newIds == {}
    ensures signedIn && current.Some? && (r.newIds == {} || details.Some?) ==> r.known == IdSet(current.value)
    ensures r.shown.Some? <==>
      r.newIds != {} && details.Some? && |details.value| > 0 && r.known == IdSet(current.value)
    ensures r.shown.Some? ==> r.shown.value == details.value[0]
  {
    if !signedIn || current.None? then CheckResult({}, None, known)
    else
      var ids := IdSet(current.value);
      var added := ids - known;
      if added == {} then CheckResult(added, None, ids)
      else if details.None? then CheckResult(added, None, known)
      else if |details.value| > 0 then CheckResult(added, Some(details.value[0]), ids)
      else CheckResult(added, None, ids)
  }

  /** A second check against an unchanged store finds nothing new, shows
      nothing and keeps the known set. */
  lemma CheckIdempotent(known: set<string>, current: seq<string>,
                        d1: Option<seq<AchievementInfo>>, d2: Option<seq<AchievementInfo>>)
    requires Check(known, true, Some(current), d1).known == IdSet(current)
    ensures var again := Check(Check(known, true, Some(current), d1).known, true, Some(current), d2);
            again.newIds == {} && again.shown.None? && again.known == IdSet(current)
  {
  }

  /** Whenever the known set is replaced, every id of the user's current
      ids is known afterwards, and the ids reported new were not known
      before. */
  lemma CheckCoversCurrent(known: set<string>, current: seq<string>, details: Option<seq<AchievementInfo>>)
    requires Check(known, true, Some(current), details).known != known
    ensures forall i :: 0 <= i < |current| ==> current[i] in Check(known, true, Some(current), details).known
    ensures Check(known, true, Some(current), details).newIds !! known
  {
  }
}
