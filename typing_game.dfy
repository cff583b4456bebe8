/** The typing-session engine of src/components/TypingGame.tsx.

    The component keeps its game state and statistics in mutable refs that
    its event handlers update step by step; `Session` holds the same state in
    fields, and each handler is a method with the same branches. What the
    browser supplies is passed in: the index `Math.random` would pick, the
    current time `Date.now()` in milliseconds, and the outcomes of the
    backend queries. Timers are events: `Tick` is one firing of the
    one-second interval, `FireWrite` the firing of the pending debounced
    write, `HideAchievement` the 5-second timeout of the notification. */
module TypingGame {
  import opened Options
  import opened Strings
  import opened TextPools
  import opened Scoring
  import opened Achievements

  /** The answer to the load-time query for the user's `user_stats` row. */
  datatype StatsFetch = FetchFailed | NoRow | Row(row: StoredStats)

  /** The statistics the load effect installs, if it gets that far: the
      stored row read with its defaults, or the initial row it creates when
      there is none. Nothing is installed without a signed-in user, when the
      read fails or when the creation fails. */
  function LoadOutcome(signedIn: bool, fetch: StatsFetch, insertOk: bool): (loaded: Option<Stats>)
    ensures loaded.Some? <==> signedIn && (fetch.Row? || (fetch.NoRow? && insertOk))
    ensures loaded.Some? && fetch.NoRow? ==> loaded.value == InitialStats
    ensures loaded.Some? && fetch.Row? ==> loaded.value == LoadedStats(fetch.row)
    ensures loaded.Some? ==> loaded.value.level != 0 && loaded.value.accuracy != 0
  {
    if !signedIn then None
    else match fetch
      case FetchFailed => None
      case NoRow => if insertOk then Some(InitialStats) else None
      case Row(row) => Some(LoadedStats(row))
  }

  class Session {
    /** The game mode and the text being typed. */
    var mode: Mode
    var currentText: string
    /** The content of the input box. */
    var input: string
    /** Number of leading characters of the text typed correctly so far. */
    var position: nat
    var started: bool
    var completed: bool
    /** `Date.now()` when the current sentence or paragraph was started. */
    var startTime: int
    /** Mismatching inputs since the text was started. */
    var errors: nat
    /** Words-mode attempt counters behind the accuracy percentage. */
    var totalAttempts: nat
    var correctAttempts: nat

    /** The statistics: level, experience, words typed (`score`), seconds
        played, words per minute and accuracy. */
    var level: int
    var exp: int
    var score: int
    var timeSpent: nat
    var wpm: int
    var accuracy: int

    /** Achievement ids known unlocked, and the notification on screen. */
    var knownAchievements: set<string>
    var unlockedAchievement: Option<AchievementInfo>
    var showAchievement: bool

    /** The debounce slot: whether a statistics write is scheduled. */
    var writePending: bool
    /** Set when the user's statistics could not be created at load time. */
    var loadError: bool

    /** The session invariant: the cursor never passes the end of the text, a
        sentence or paragraph is never empty, and words mode is never started
        or completed (only sentences and paragraphs start a timed round).
        That the text is an entry of the mode's pool is stated by every
        method that draws one. */
    ghost predicate Valid()
      reads this
    {
      && position <= |currentText|
      && (mode != Words ==> |currentText| > 0)
      && (mode == Words ==> !started && !completed)
    }

    /** The statistics as the debounced write sends them. */
    function Snapshot(): Stats
      reads this
    {
      Stats(level, exp, score, timeSpent, wpm, accuracy)
    }

    function LevelProgress(): Progress
      reads this
    {
      Progress(level, exp)
    }

    /** The component's initial state, followed by the `getNewText` of the
        mount effect. */
    constructor (textIndex: nat)
      requires textIndex < |Pool(Words)|
      ensures Valid()
      ensures mode == Words && currentText == Pool(Words)[textIndex]
      ensures input == "" && position == 0 && !started && !completed
      ensures errors == 0 && totalAttempts == 0 && correctAttempts == 0
      ensures Snapshot() == Stats(1, 0, 0, 0, 0, 100)
      ensures knownAchievements == {} && unlockedAchievement.None? && !showAchievement
      ensures !writePending && !loadError
    {
      mode := Words;
      currentText := Pool(Words)[textIndex];
      input := "";
      position := 0;
      started, completed := false, false;
      startTime := 0;
      errors, totalAttempts, correctAttempts := 0, 0, 0;
      level, exp, score, timeSpent, wpm, accuracy := 1, 0, 0, 0, 0, 100;
      knownAchievements := {};
      unlockedAchievement, showAchievement := None, false;
      writePending, loadError := false, false;
    }

    /** `getNewText`: draws the text at `index` of the mode's pool and
        resets the cursor, the input and the completed flag. */
    method GetNewText(index: nat)
      requires index < |Pool(mode)| && (mode == Words ==> !started)
      modifies this`currentText, this`position, this`input, this`completed
      ensures Valid()
      ensures currentText == Pool(mode)[index]
      ensures position == 0 && input == "" && !completed
    {
      if mode != Words {
        PoolTextNonEmpty(mode, index);
      }
      currentText := Pool(mode)[index];
      position := 0;
      input := "";
      completed := false;
    }

    /** `startGame`: a new text, started at `now`, with no errors. Only
        sentences and paragraphs start a round. */
    method StartGame(index: nat, now: int)
      requires Valid() && mode != Words && index < |Pool(mode)|
      modifies this`currentText, this`position, this`input, this`completed,
               this`started, this`startTime, this`errors
      ensures Valid()
      ensures currentText == Pool(mode)[index]
      ensures position == 0 && input == "" && !completed
      ensures started && startTime == now && errors == 0
    {
      GetNewText(index);
      started := true;
      completed := false;
      startTime := now;
      errors := 0;
    }

    /** `updateWPM`: live WPM from the words typed and the seconds played,
        left alone while no word has been typed. */
    method UpdateWpm()
      requires timeSpent > 0
      modifies this`wpm
      ensures wpm == if score > 0 then LiveWpm(score, timeSpent) else old(wpm)
      ensures score > 0 ==> wpm >= 0
    {
      if score > 0 {
        wpm := LiveWpm(score, timeSpent);
      }
    }

    /** `updateAccuracy`: words-mode accuracy from the attempt counters,
        left alone while there has been no attempt. */
    method UpdateAccuracy()
      modifies this`accuracy
      ensures accuracy == WordsAccuracy(old(accuracy), correctAttempts, totalAttempts)
    {
      if totalAttempts > 0 {
        accuracy := WordsAccuracy(accuracy, correctAttempts, totalAttempts);
      }
    }

    /** The level-up step both handlers share: add the experience, then
        level up at most once. */
    method AddExp(gained: int)
      modifies this`level, this`exp
      ensures LevelProgress() == GainExp(old(LevelProgress()), gained)
      ensures level == old(level) || level == old(level) + 1
      ensures TotalExp(LevelProgress()) == TotalExp(old(LevelProgress())) + gained
    {
      exp := exp + gained;
      if exp >= level * ExpPerLevel {
        level := level + 1;
        exp := exp - (level - 1) * ExpPerLevel;
      }
    }

    /** `debouncedUpdate`: schedules a write, replacing a pending one; the
        slot holds at most one. */
    method ScheduleWrite()
      modifies this`writePending
      ensures writePending
    {
      writePending := true;
    }

    /** One firing of the one-second interval: only while a round is started
        and not completed, a second is added and live WPM is updated. */
    method Tick()
      modifies this`timeSpent, this`wpm
      ensures old(started && !completed) ==> timeSpent == old(timeSpent) + 1
      ensures old(started && !completed) ==>
        wpm == if score > 0 then LiveWpm(score, timeSpent) else old(wpm)
      ensures !old(started && !completed) ==> timeSpent == old(timeSpent) && wpm == old(wpm)
      ensures old(Valid() && mode == Words) ==> timeSpent == old(timeSpent)
    {
      if started && !completed {
        timeSpent := timeSpent + 1;
        UpdateWpm();
      }
    }

    /** `handleWordInput`: the input box of words mode changed to `value`.
        A longer input counts as an attempt. Only an input equal to the word
        scores: one more correct attempt and word, recomputed accuracy, the
        fixed experience with level-up, a scheduled write, a cleared input and
        the word at `nextIndex`. Any other input only becomes the box content. */
    method HandleWordInput(value: string, nextIndex: nat)
      requires Valid() && mode == Words && nextIndex < |Pool(Words)|
      modifies this`input, this`totalAttempts, this`correctAttempts, this`accuracy,
               this`score, this`level, this`exp, this`writePending,
               this`currentText, this`position, this`completed
      ensures Valid()
      ensures totalAttempts == old(totalAttempts) + (if |value| > |old(input)| then 1 else 0)
      ensures value == old(currentText) ==>
        && correctAttempts == old(correctAttempts) + 1
        && score == old(score) + 1
        && LevelProgress() == GainExp(old(LevelProgress()), ExpPerWord)
        && accuracy == WordsAccuracy(old(accuracy), correctAttempts, totalAttempts)
        && writePending
        && input == "" && position == 0 && currentText == Pool(Words)[nextIndex]
      ensures value != old(currentText) ==>
        && input == value
        && correctAttempts == old(correctAttempts) && score == old(score)
        && LevelProgress() == old(LevelProgress()) && accuracy == old(accuracy)
        && writePending == old(writePending)
        && currentText == old(currentText) && position == old(position)
    {
      var previous := input;
      input := value;
      if |value| > |previous| {
        totalAttempts := totalAttempts + 1;
      }
      if value == currentText {
        correctAttempts := correctAttempts + 1;
        UpdateAccuracy();
        score := score + 1;
        AddExp(ExpPerWord);
        ScheduleWrite();
        input := "";
        GetNewText(nextIndex);
      }
    }

    /** The completion branch of `handleTextInput`, run when the input
        equals the whole text at time `now`: the words of the text are added,
        WPM and accuracy become the rounded means of their old values and
        this session's, the experience earned is weighted by the session
        accuracy (with level-up), a write is scheduled and the round is
        completed. */
    method CompleteText(now: int)
      requires |currentText| > 0 && startTime < now
      modifies this`score, this`wpm, this`accuracy, this`level, this`exp,
               this`writePending, this`completed
      ensures
        var words := WordsInText(currentText);
        var sessionAccuracy := SessionAccuracy(|currentText|, errors);
        && score == old(score) + words
        && wpm == Numeric.Mean(old(wpm), SessionWpm(words, now - startTime))
        && accuracy == Numeric.Mean(old(accuracy), sessionAccuracy)
        && LevelProgress() == GainExp(old(LevelProgress()), CompletionExp(words, sessionAccuracy))
        && writePending && completed
    {
      var words := WordsInText(currentText);
      score := score + words;
      var sessionWpm := SessionWpm(words, now - startTime);
      var totalChars := |currentText|;
      var sessionAccuracy := SessionAccuracy(totalChars, errors);
      wpm := Numeric.Mean(wpm, sessionWpm);
      accuracy := Numeric.Mean(accuracy, sessionAccuracy);
      AddExp(CompletionExp(words, sessionAccuracy));
      ScheduleWrite();
      completed := true;
    }

    /** The started branch of `handleTextInput`: the input is kept; if it is
        a prefix of the text the cursor moves to its end, and the whole text
        completes the round; otherwise one error is counted and the cursor
        stays. */
    method MatchTextInput(value: string, now: int)
      requires Valid() && mode != Words && started && !completed && startTime < now
      modifies this`input, this`position, this`errors,
               this`score, this`wpm, this`accuracy, this`level, this`exp,
               this`writePending, this`completed
      ensures Valid()
      ensures input == value
      ensures value <= currentText ==>
        position == |value| && errors == old(errors) && completed == (value == currentText)
      ensures !(value <= currentText) ==>
        position == old(position) && errors == old(errors) + 1
      ensures value != currentText ==>
        && Snapshot() == old(Snapshot()) && writePending == old(writePending)
        && completed == old(completed)
      ensures value == currentText ==>
        var words := WordsInText(currentText);
        var sessionAccuracy := SessionAccuracy(|currentText|, errors);
        && score == old(score) + words
        && wpm == Numeric.Mean(old(wpm), SessionWpm(words, now - startTime))
        && accuracy == Numeric.Mean(old(accuracy), sessionAccuracy)
        && LevelProgress() == GainExp(old(LevelProgress()), CompletionExp(words, sessionAccuracy))
        && writePending
    {
      input := value;
      var expected := Prefix(currentText, |value|);
      MatchesPrefixIff(value, currentText);
      if value == expected {
        position := |value|;
        if |value| == |currentText| {
          CompleteText(now);
        }
      } else {
        errors := errors + 1;
      }
    }

    /** `handleTextInput`: the input box of sentences or paragraphs mode
        changed to `value` at time `now`. Before the round is started the
        keystroke only starts it (on the text at `nextIndex`) and is dropped;
        afterwards it is matched against the text. */
    method HandleTextInput(value: string, now: int, nextIndex: nat)
      requires Valid() && mode != Words && !completed && nextIndex < |Pool(mode)|
      requires started ==> startTime < now
      modifies this`currentText, this`position, this`input, this`completed,
               this`started, this`startTime, this`errors,
               this`score, this`wpm, this`accuracy, this`level, this`exp, this`writePending
      ensures Valid() && started
      ensures !old(started) ==>
        && currentText == Pool(mode)[nextIndex] && input == "" && position == 0
        && !completed && startTime == now && errors == 0
        && Snapshot() == old(Snapshot()) && writePending == old(writePending)
      ensures old(started) ==>
        && input == value && currentText == old(currentText) && startTime == old(startTime)
        && completed == (value == currentText)
        && (value <= currentText ==> position == |value| && errors == old(errors))
        && (!(value <= currentText) ==> position == old(position) && errors == old(errors) + 1)
        && (value != currentText ==> Snapshot() == old(Snapshot()) && writePending == old(writePending))
      ensures old(started) && value == currentText ==>
        var words := WordsInText(currentText);
        var sessionAccuracy := SessionAccuracy(|currentText|, errors);
        && score == old(score) + words
        && wpm == Numeric.Mean(old(wpm), SessionWpm(words, now - startTime))
        && accuracy == Numeric.Mean(old(accuracy), sessionAccuracy)
        && LevelProgress() == GainExp(old(LevelProgress()), CompletionExp(words, sessionAccuracy))
        && writePending
    {
      if !started {
        StartGame(nextIndex, now);
        return;
      }
      MatchTextInput(value, now);
    }

    /** `handleInput`: dispatches on the mode. */
    method HandleInput(value: string, now: int, nextIndex: nat)
      requires Valid() && !completed && nextIndex < |Pool(mode)|
      requires mode != Words && started ==> startTime < now
      modifies this`currentText, this`position, this`input, this`completed,
               this`started, this`startTime, this`errors,
               this`totalAttempts, this`correctAttempts,
               this`score, this`wpm, this`accuracy, this`level, this`exp, this`writePending
      ensures Valid() && mode == old(mode)
      ensures level == old(level) || level == old(level) + 1
      ensures score >= old(score)
      ensures timeSpent == old(timeSpent)
      ensures old(mode) == Words ==>
        && errors == old(errors) && startTime == old(startTime) && started == old(started)
        && wpm == old(wpm)
        && totalAttempts == old(totalAttempts) + (if |value| > |old(input)| then 1 else 0)
      ensures old(mode) == Words && value == old(currentText) ==>
        && correctAttempts == old(correctAttempts) + 1
        && score == old(score) + 1
        && LevelProgress() == GainExp(old(LevelProgress()), ExpPerWord)
        && accuracy == WordsAccuracy(old(accuracy), correctAttempts, totalAttempts)
        && writePending
        && input == "" && position == 0 && currentText == Pool(Words)[nextIndex]
      ensures old(mode) == Words && value != old(currentText) ==>
        && input == value
        && correctAttempts == old(correctAttempts) && score == old(score)
        && LevelProgress() == old(LevelProgress()) && accuracy == old(accuracy)
        && writePending == old(writePending)
        && currentText == old(currentText) && position == old(position)
      ensures old(mode) != Words ==>
        && totalAttempts == old(totalAttempts) && correctAttempts == old(correctAttempts)
        && started
      ensures old(mode) != Words && !old(started) ==>
        && currentText == Pool(mode)[nextIndex] && input == "" && position == 0
        && !completed && startTime == now && errors == 0
        && Snapshot() == old(Snapshot()) && writePending == old(writePending)
      ensures old(mode) != Words && old(started) ==>
        && input == value && currentText == old(currentText) && startTime == old(startTime)
        && completed == (value == currentText)
        && (value <= currentText ==> position == |value| && errors == old(errors))
        && (!(value <= currentText) ==> position == old(position) && errors == old(errors) + 1)
        && (value != currentText ==> Snapshot() == old(Snapshot()) && writePending == old(writePending))
      ensures old(mode) != Words && old(started) && value == currentText ==>
        var words := WordsInText(currentText);
        var sessionAccuracy := SessionAccuracy(|currentText|, errors);
        && score == old(score) + words
        && wpm == Numeric.Mean(old(wpm), SessionWpm(words, now - startTime))
        && accuracy == Numeric.Mean(old(accuracy), sessionAccuracy)
        && LevelProgress() == GainExp(old(LevelProgress()), CompletionExp(words, sessionAccuracy))
        && writePending
    {
      if mode == Words {
        HandleWordInput(value, nextIndex);
      } else {
        HandleTextInput(value, now, nextIndex);
      }
    }

    /** `changeGameMode`: the round is no longer started or completed and
        the input is cleared; the error count is left as it was. Choosing the
        mode already in play only draws a new text (at `index`) from its
        pool. Choosing another mode replaces the text-drawing callback, so the
        component's load effect is torn down and run again: its clean-up
        drops the pending statistics write, and it draws the text from the
        new pool and reloads the statistics and achievement ids (the outcome
        of those queries is passed in as for `LoadUserStats`). The draw that
        `changeGameMode` makes itself still uses the previous mode's pool and
        is replaced by the effect's. */
    method ChangeGameMode(newMode: Mode, index: nat, signedIn: bool, fetch: StatsFetch, insertOk: bool,
                          achievements: Option<seq<string>>)
      requires Valid() && index < |Pool(newMode)|
      requires fetch.Row? && fetch.row.timeSpent.Some? ==> fetch.row.timeSpent.value >= 0
      modifies this`mode, this`started, this`completed, this`input,
               this`currentText, this`position, this`writePending,
               this`level, this`exp, this`score, this`timeSpent, this`wpm, this`accuracy,
               this`knownAchievements, this`loadError
      ensures Valid()
      ensures mode == newMode && currentText == Pool(newMode)[index]
      ensures !started && !completed && input == "" && position == 0
      ensures newMode == old(mode) ==>
        && writePending == old(writePending) && Snapshot() == old(Snapshot())
        && knownAchievements == old(knownAchievements) && loadError == old(loadError)
      ensures newMode != old(mode) ==>
        var loaded := LoadOutcome(signedIn, fetch, insertOk);
        && !writePending
        && Snapshot() == loaded.GetOr(old(Snapshot()))
        && knownAchievements == (if loaded.Some? && achievements.Some? then IdSet(achievements.value)
                                 else old(knownAchievements))
        && loadError == (old(loadError) || (signedIn && fetch.NoRow? && !insertOk))
    {
      var reload := newMode != mode;
      mode := newMode;
      started := false;
      completed := false;
      input := "";
      GetNewText(index);
      if reload {
        writePending := false;
        LoadUserStats(signedIn, fetch, insertOk, achievements);
      }
    }

    /** `checkNewAchievements`: compares the user's unlocked ids with the
        known ones and shows the first detail record of new ones. */
    method CheckNewAchievements(signedIn: bool, current: Option<seq<string>>,
                                details: Option<seq<AchievementInfo>>)
      modifies this`knownAchievements, this`unlockedAchievement, this`showAchievement
      ensures var r := Check(old(knownAchievements), signedIn, current, details);
        && knownAchievements == r.known
        && (r.shown.Some? ==> unlockedAchievement == r.shown && showAchievement)
        && (r.shown.None? ==> unlockedAchievement == old(unlockedAchievement)
                              && showAchievement == old(showAchievement))
    {
      var r := Check(knownAchievements, signedIn, current, details);
      knownAchievements := r.known;
      if r.shown.Some? {
        unlockedAchievement := r.shown;
        showAchievement := true;
      }
    }

    /** The 5-second timeout that hides the notification. */
    method HideAchievement()
      modifies this`showAchievement
      ensures !showAchievement
    {
      showAchievement := false;
    }

    /** The pending debounced write fires (`updateUserStatsDebounced`). The
        statistics are read when it fires, so the write carries the state
        after the last event, however many writes it replaced. With a
        signed-in user the write is sent (the result); when it succeeds the
        achievements are checked. */
    method FireWrite(signedIn: bool, updateOk: bool, current: Option<seq<string>>,
                     details: Option<seq<AchievementInfo>>) returns (written: Option<Stats>)
      requires writePending
      modifies this`writePending, this`knownAchievements, this`unlockedAchievement, this`showAchievement
      ensures !writePending
      ensures written == if signedIn then Some(Snapshot()) else None
      ensures Snapshot() == old(Snapshot())
      ensures signedIn && updateOk ==>
        var r := Check(old(knownAchievements), true, current, details);
        && knownAchievements == r.known
        && (r.shown.Some? ==> unlockedAchievement == r.shown && showAchievement)
        && (r.shown.None? ==> unlockedAchievement == old(unlockedAchievement)
                              && showAchievement == old(showAchievement))
      ensures !(signedIn && updateOk) ==>
        && knownAchievements == old(knownAchievements)
        && unlockedAchievement == old(unlockedAchievement)
        && showAchievement == old(showAchievement)
    {
      writePending := false;
      if !signedIn {
        return None;
      }
      written := Some(Snapshot());
      if updateOk {
        CheckNewAchievements(signedIn, current, details);
      }
    }

    /** Leaving the page clears the pending write. */
    method Unmount()
      modifies this`writePending
      ensures !writePending
    {
      writePending := false;
    }

    /** The load effect (`fetchUserStats`): reads the user's statistics row,
        creating it with the initial values when there is none, then reads
        the unlocked achievement ids. A failed read, or no signed-in user,
        leaves everything as it was; a failed creation records an error and
        skips the achievement query; a failed achievement query keeps the
        known ids. */
    method LoadUserStats(signedIn: bool, fetch: StatsFetch, insertOk: bool,
                         achievements: Option<seq<string>>)
      requires fetch.Row? && fetch.row.timeSpent.Some? ==> fetch.row.timeSpent.value >= 0
      modifies this`level, this`exp, this`score, this`timeSpent, this`wpm, this`accuracy,
               this`knownAchievements, this`loadError
      ensures var loaded := LoadOutcome(signedIn, fetch, insertOk);
        && Snapshot() == loaded.GetOr(old(Snapshot()))
        && knownAchievements == (if loaded.Some? && achievements.Some? then IdSet(achievements.value)
                                 else old(knownAchievements))
      ensures loadError == (old(loadError) || (signedIn && fetch.NoRow? && !insertOk))
    {
      if !signedIn || fetch.FetchFailed? {
        return;
      }
      var stats;
      if fetch.NoRow? {
        if !insertOk {
          loadError := true;
          return;
        }
        stats := InitialStats;
      } else {
        stats := LoadedStats(fetch.row);
      }
      level, exp, score := stats.level, stats.exp, stats.wordsTyped;
      timeSpent, wpm, accuracy := stats.timeSpent, stats.wpm, stats.accuracy;
      if achievements.Some? {
        knownAchievements := IdSet(achievements.value);
      }
    }
  }
}
