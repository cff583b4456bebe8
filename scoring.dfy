/** The scoring rules of the typing game (src/components/TypingGame.tsx):
    experience and level-up, words-mode and session accuracy, live and
    session words per minute, the words counted in a completed text, and the
    statistics record that is loaded from and written to the backend. */
module Scoring {
  import opened Options
  import opened Numeric
  import opened Strings

  /** Experience for one correctly typed word in words mode. */
  const ExpPerWord := 10
  /** A level L is left once experience reaches L * ExpPerLevel. */
  const ExpPerLevel := 100
  /** Milliseconds in a minute, the unit of session WPM. */
  const MsPerMinute := 60000

  /** Level and experience within the level. */
  datatype Progress = Progress(level: int, exp: int)

  /** All experience ever earned: what the levels below `level` cost, plus
      the experience held in the current level. */
  function TotalExp(p: Progress): int
  {
    50 * p.level * (p.level - 1) + p.exp
  }

  /** Adds earned experience, then levels up ONCE if the threshold of the
      current level is reached: the level rises by one and that threshold is
      taken off the experience. No experience is created or lost. */
  function GainExp(p: Progress, gained: int): (r: Progress)
    ensures r.level == p.level || r.level == p.level + 1
    ensures r.level == p.level + 1 <==> p.exp + gained >= p.level * ExpPerLevel
    ensures TotalExp(r) == TotalExp(p) + gained
  {
    var exp := p.exp + gained;
    if exp >= p.level * ExpPerLevel then
      assert 50 * (p.level + 1) * p.level == 50 * p.level * (p.level - 1) + 100 * p.level;
      Progress(p.level + 1, exp - p.level * ExpPerLevel)
    else
      Progress(p.level, exp)
  }

  /** A progress is in range when its experience is below the threshold of
      its level. */
  predicate InRange(p: Progress)
  {
    0 <= p.exp < p.level * ExpPerLevel
  }

  /** A gain of at most one level's worth keeps the progress in range; the
      fixed words-mode gain is such a gain. */
  lemma GainKeepsInRange(p: Progress, gained: int)
    requires InRange(p)
    requires 0 <= gained <= ExpPerLevel
    ensures InRange(GainExp(p, gained))
    ensures GainExp(p, gained).level >= 1
  {
    assert p.level >= 1;
    var r := GainExp(p, gained);
    if r.level == p.level + 1 {
      assert r.exp < ExpPerLevel <= r.level * ExpPerLevel;
    }
  }

  /** Only one level is gained per event: a gain that reaches the threshold
      of the next level too leaves the experience at or above it. */
  lemma GainLevelsUpOnce(p: Progress, gained: int)
    requires p.level >= 0
    requires p.exp + gained >= p.level * ExpPerLevel + (p.level + 1) * ExpPerLevel
    ensures GainExp(p, gained).level == p.level + 1
    ensures GainExp(p, gained).exp >= GainExp(p, gained).level * ExpPerLevel
  {
  }

  /** Words-mode accuracy (`updateAccuracy`): correct over total attempts as
      a rounded percentage, recomputed only when there was an attempt. */
  function WordsAccuracy(accuracy: int, correct: nat, total: nat): (r: int)
    ensures total == 0 ==> r == accuracy
    ensures 0 < total && correct <= total ==> 0 <= r <= 100
    ensures 0 < total && correct == total ==> r == 100
    ensures 0 < total && correct > total ==> r >= 100
  {
    if total == 0 then accuracy
    else if correct == total then
      RoundDivExact(100, total);
      RoundDiv(correct * 100, total)
    else if correct < total then
      RoundDivAtLeast(correct * 100, total, 0);
      RoundDivAtMost(correct * 100, total, 100);
      RoundDiv(correct * 100, total)
    else
      RoundDivAtLeast(correct * 100, total, 100);
      RoundDiv(correct * 100, total)
  }

  /** Half of the attempts correct is an accuracy of 50. */
  lemma WordsAccuracyHalf(accuracy: int, k: nat)
    requires k > 0
    ensures WordsAccuracy(accuracy, k, 2 * k) == 50
  {
    RoundDivUnique(k * 100, 2 * k, 50);
  }

  /** Accuracy of one completed sentence or paragraph: the share of its
      characters not matched by an error, as a rounded percentage. It is not
      clamped: more errors than characters give a value of 0 or below. */
  function SessionAccuracy(length: nat, errors: nat): (r: int)
    requires length > 0
    ensures errors == 0 ==> r == 100
    ensures errors <= length ==> 0 <= r <= 100
    ensures errors > length ==> r <= 0
  {
    var n := (length - errors) * 100;
    if errors == 0 then
      RoundDivExact(100, length);
      RoundDiv(n, length)
    else if errors <= length then
      RoundDivAtLeast(n, length, 0);
      RoundDivAtMost(n, length, 100);
      RoundDiv(n, length)
    else
      RoundDivAtMost(n, length, 0);
      RoundDiv(n, length)
  }

  /** More errors never give a higher session accuracy. */
  lemma SessionAccuracyAntitone(length: nat, e1: nat, e2: nat)
    requires length > 0 && e1 <= e2
    ensures SessionAccuracy(length, e2) <= SessionAccuracy(length, e1)
  {
    RoundDivMonotone((length - e2) * 100, (length - e1) * 100, length);
  }

  /** Twice as many errors as characters give exactly -100. */
  lemma SessionAccuracyUnclamped(length: nat)
    requires length > 0
    ensures SessionAccuracy(length, 2 * length) == -100
  {
    RoundDivExact(-100, length);
  }

  /** `text.split(' ').length`: the number of space-separated fields. */
  function WordsInText(text: string): (n: nat)
    ensures n == Count(text, ' ') + 1
  {
    |Split(text, ' ')|
  }

  /** Session WPM of a completed text: its words over the elapsed minutes,
      rounded. */
  function SessionWpm(words: nat, elapsedMs: int): (r: int)
    requires elapsedMs > 0
    ensures r >= 0
    ensures elapsedMs == MsPerMinute ==> r == words
    ensures elapsedMs <= MsPerMinute ==> r >= words
  {
    var n := words * MsPerMinute;
    if elapsedMs == MsPerMinute then
      RoundDivExact(words, MsPerMinute);
      RoundDiv(n, elapsedMs)
    else if elapsedMs < MsPerMinute then
      MulMonotone(words, elapsedMs, MsPerMinute);
      RoundDivAtLeast(n, elapsedMs, words);
      RoundDiv(n, elapsedMs)
    else
      RoundDivAtLeast(n, elapsedMs, 0);
      RoundDiv(n, elapsedMs)
  }

  /** Live WPM (`updateWPM`): words typed over the seconds played, in words
      per minute, rounded. */
  function LiveWpm(wordsTyped: int, seconds: nat): (r: int)
    requires seconds > 0
    ensures wordsTyped >= 0 ==> r >= 0
    ensures seconds == 60 ==> r == wordsTyped
  {
    var n := wordsTyped * 60;
    if seconds == 60 then
      RoundDivExact(wordsTyped, 60);
      RoundDiv(n, seconds)
    else if wordsTyped >= 0 then
      RoundDivAtLeast(n, seconds, 0);
      RoundDiv(n, seconds)
    else
      RoundDiv(n, seconds)
  }

  /** Experience for a completed text: five points per word, weighted by the
      session accuracy, rounded. */
  function CompletionExp(words: nat, sessionAccuracy: int): (r: int)
    ensures sessionAccuracy == 100 ==> r == 5 * words
    ensures 0 <= sessionAccuracy <= 100 ==> 0 <= r <= 5 * words
  {
    var n := words * 5 * sessionAccuracy;
    if sessionAccuracy == 100 then
      RoundDivExact(5 * words, 100);
      RoundDiv(n, 100)
    else if 0 <= sessionAccuracy <= 100 then
      MulMonotone(words * 5, 0, sessionAccuracy);
      MulMonotone(words * 5, sessionAccuracy, 100);
      RoundDivAtLeast(n, 100, 0);
      RoundDivAtMost(n, 100, 5 * words);
      RoundDiv(n, 100)
    else
      RoundDiv(n, 100)
  }

  /** The statistics of one user, as the game holds them and writes them. */
  datatype Stats = Stats(level: int, exp: int, wordsTyped: int, timeSpent: int, wpm: int, accuracy: int)

  /** A `user_stats` row as the backend returns it: every number may be null. */
  datatype StoredStats = StoredStats(
    level: Option<int>, exp: Option<int>, wordsTyped: Option<int>,
    timeSpent: Option<int>, wpm: Option<int>, accuracy: Option<int>,
    updatedAt: int)

  /** The row the game inserts for a user who has none. */
  const InitialStats := Stats(1, 0, 0, 0, 0, 100)

  /** The game's reading of a stored row (`x || default`): a null or zero
      level reads as 1, a null or zero accuracy as 100, every other null or
      zero field as 0. */
  function LoadedStats(row: StoredStats): (s: Stats)
    ensures s.level != 0 && s.accuracy != 0
    ensures s.level == 1 || row.level == Some(s.level)
    ensures row.level.Some? && row.level.value != 0 ==> s.level == row.level.value
    ensures s.accuracy == 100 || row.accuracy == Some(s.accuracy)
    ensures row.accuracy.Some? && row.accuracy.value != 0 ==> s.accuracy == row.accuracy.value
    ensures s.accuracy == 100 <==> row.accuracy in {None, Some(0), Some(100)}
    ensures s.exp == row.exp.GetOr(0) && s.wordsTyped == row.wordsTyped.GetOr(0)
    ensures s.timeSpent == row.timeSpent.GetOr(0) && s.wpm == row.wpm.GetOr(0)
  {
    assert row.accuracy in {None, Some(0), Some(100)} <==>
      row.accuracy.None? || row.accuracy.value == 0 || row.accuracy.value == 100;
    Stats(OrDefault(row.level, 1), OrDefault(row.exp, 0), OrDefault(row.wordsTyped, 0),
          OrDefault(row.timeSpent, 0), OrDefault(row.wpm, 0), OrDefault(row.accuracy, 100))
  }
}
