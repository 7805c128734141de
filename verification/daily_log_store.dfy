/** The daily log being filled in (src/stores/daily-log.store.ts): in-place
    edits of the day's tasks, the recalculation that hands the engine the
    stored history, and the save. Logs are stored per date (the week part of
    the path is a function of the date); the week's dates and the 30 previous
    dates come in as parameters. */
module DailyLogStores {
  import opened Types
  import Seqs
  import DailyAggregator
  import Streak

  /** `createEmptyLog`: nothing done, no sessions or drops, nothing earned,
      multiplier one and no streak. */
  function CreateEmptyLog(date: string): (log: DailyLog)
    ensures log.date == date
    ensures !log.homework.completed && !log.math.completed && !log.juggling.completed
    ensures log.languages == [] && log.randomDrops == []
    ensures log.rewards == EMPTY_DAILY_REWARDS && log.mathMultiplier == 10 && log.streakDay == 0
  {
    DailyLog(date, HomeworkTask(false, Ok, false), MathTask(false, Basic, 0, false), JugglingTask(false, 0, false),
             [], [], EMPTY_DAILY_REWARDS, 10, 0)
  }

  /** `isEmpty`. */
  predicate IsEmpty(log: Option<DailyLog>)
  {
    log.None? ||
    (!log.value.homework.completed && !log.value.math.completed && !log.value.juggling.completed &&
     |log.value.languages| == 0 && |log.value.randomDrops| == 0)
  }

  /** A new log is empty. */
  lemma EmptyLogIsEmpty(date: string)
    ensures IsEmpty(Some(CreateEmptyLog(date)))
  {
  }

  /** Any language session makes a log non-empty, even one not completed. */
  lemma LanguageMakesNonEmpty(log: DailyLog, lang: LanguageTask)
    ensures !IsEmpty(Some(log.(languages := log.languages + [lang])))
  {
    assert |log.languages + [lang]| > 0;
  }

  /** An empty log is not an active day, so it earns no streak. */
  lemma EmptyLogInactive(log: DailyLog)
    requires IsEmpty(Some(log))
    ensures !Streak.IsDayActive(log)
  {
  }

  // ==================== Partial updates ====================

  /** The fields of a `Partial<HomeworkTask>` that are present. */
  datatype HomeworkChanges = HomeworkChanges(completed: Option<bool>, quality: Option<HomeworkQuality>, selfChecked: Option<bool>)
  datatype MathChanges = MathChanges(completed: Option<bool>, difficulty: Option<MathDifficulty>, problems: Option<nat>, allCorrect: Option<bool>)
  datatype JugglingChanges = JugglingChanges(completed: Option<bool>, minutes: Option<int>, newRecord: Option<bool>)

  function Pick<T>(change: Option<T>, current: T): T
  {
    if change.Some? then change.value else current
  }

  /** `{ ...homework, ...changes }`: present fields win. */
  function MergeHomework(h: HomeworkTask, c: HomeworkChanges): (r: HomeworkTask)
    ensures c.completed.Some? ==> r.completed == c.completed.value
    ensures c.completed.None? ==> r.completed == h.completed
    ensures c.quality.Some? ==> r.quality == c.quality.value
    ensures c.quality.None? ==> r.quality == h.quality
    ensures c.selfChecked.Some? ==> r.selfChecked == c.selfChecked.value
    ensures c.selfChecked.None? ==> r.selfChecked == h.selfChecked
  {
    HomeworkTask(Pick(c.completed, h.completed), Pick(c.quality, h.quality), Pick(c.selfChecked, h.selfChecked))
  }

  function MergeMath(m: MathTask, c: MathChanges): (r: MathTask)
    ensures c.completed.Some? ==> r.completed == c.completed.value
    ensures c.completed.None? ==> r.completed == m.completed
    ensures c.difficulty.Some? ==> r.difficulty == c.difficulty.value
    ensures c.difficulty.None? ==> r.difficulty == m.difficulty
    ensures c.problems.Some? ==> r.problems == c.problems.value
    ensures c.problems.None? ==> r.problems == m.problems
    ensures c.allCorrect.Some? ==> r.allCorrect == c.allCorrect.value
    ensures c.allCorrect.None? ==> r.allCorrect == m.allCorrect
  {
    MathTask(Pick(c.completed, m.completed), Pick(c.difficulty, m.difficulty), Pick(c.problems, m.problems),
             Pick(c.allCorrect, m.allCorrect))
  }

  function MergeJuggling(j: JugglingTask, c: JugglingChanges): (r: JugglingTask)
    ensures c.completed.Some? ==> r.completed == c.completed.value
    ensures c.completed.None? ==> r.completed == j.completed
    ensures c.minutes.Some? ==> r.minutes == c.minutes.value
    ensures c.minutes.None? ==> r.minutes == j.minutes
    ensures c.newRecord.Some? ==> r.newRecord == c.newRecord.value
    ensures c.newRecord.None? ==> r.newRecord == j.newRecord
  {
    JugglingTask(Pick(c.completed, j.completed), Pick(c.minutes, j.minutes), Pick(c.newRecord, j.newRecord))
  }

  /** Merging the same changes twice is merging them once. */
  lemma MergesIdempotent(h: HomeworkTask, hc: HomeworkChanges, m: MathTask, mc: MathChanges, j: JugglingTask, jc: JugglingChanges)
    ensures MergeHomework(MergeHomework(h, hc), hc) == MergeHomework(h, hc)
    ensures MergeMath(MergeMath(m, mc), mc) == MergeMath(m, mc)
    ensures MergeJuggling(MergeJuggling(j, jc), jc) == MergeJuggling(j, jc)
  {
  }

  // ==================== Input assembly ====================

  /** The stored logs of the given dates, in order, missing dates skipped. */
  function StoredLogs(saved: map<string, DailyLog>, dates: seq<string>): (r: seq<DailyLog>)
    ensures |r| <= |dates|
  {
    if dates == [] then []
    else
      var before := StoredLogs(saved, dates[..|dates| - 1]);
      var d := dates[|dates| - 1];
      if d in saved then before + [saved[d]] else before
  }

  /** Reading the dates of a list split in two is reading each part. */
  lemma {:induction false} StoredLogsAppend(saved: map<string, DailyLog>, a: seq<string>, b: seq<string>)
    ensures StoredLogs(saved, a + b) == StoredLogs(saved, a) + StoredLogs(saved, b)
    decreases |b|
  {
    if b == [] {
      assert a + b == a;
    } else {
      assert (a + b)[..|a + b| - 1] == a + b[..|b| - 1];
      StoredLogsAppend(saved, a, b[..|b| - 1]);
    }
  }

  /** A date with nothing stored contributes nothing: an absent day does not
      break the run of previous logs. */
  lemma MissingDateSkipped(saved: map<string, DailyLog>, before: seq<string>, d: string, after: seq<string>)
    requires d !in saved
    ensures StoredLogs(saved, before + [d] + after) == StoredLogs(saved, before + after)
  {
    StoredLogsAppend(saved, before + [d], after);
    StoredLogsAppend(saved, before, [d]);
    StoredLogsAppend(saved, before, after);
    assert [d][..0] == [];
  }

  /** Leaving today's date out of the week's dates reads the storage as if
      today's log were not there. */
  lemma {:induction false} WeekLogsLeaveOutToday(saved: map<string, DailyLog>, dates: seq<string>, today: string)
    ensures StoredLogs(saved, OtherDates(dates, today)) == StoredLogs(saved - {today}, dates)
  {
    var p := (d: string) => d != today;
    if dates != [] {
      var init := dates[..|dates| - 1];
      var last := dates[|dates| - 1];
      assert dates == init + [last];
      Seqs.FilterAppend(init, [last], p);
      assert Seqs.Filter([last], p) == if p(last) then [last] else [] by {
        assert [last][1..] == [];
      }
      StoredLogsAppend(saved, Seqs.Filter(init, p), Seqs.Filter([last], p));
      WeekLogsLeaveOutToday(saved, init, today);
      if p(last) {
        assert [last][..0] == [];
      }
    }
  }

  /** The loop that reads the stored logs of some dates. */
  method ReadLogs(saved: map<string, DailyLog>, dates: seq<string>) returns (logs: seq<DailyLog>)
    ensures logs == StoredLogs(saved, dates)
  {
    logs := [];
    for i := 0 to |dates|
      invariant logs == StoredLogs(saved, dates[..i])
    {
      assert dates[..i + 1][..i] == dates[..i];
      var d := dates[i];
      if d in saved {
        logs := logs + [saved[d]];
      }
    }
    assert dates[..|dates|] == dates;
  }

  /** The week's dates other than today. */
  function OtherDates(weekDates: seq<string>, today: string): seq<string>
  {
    Seqs.Filter(weekDates, (d: string) => d != today)
  }

  /** The engine input `recalculate` assembles: the current log, the player,
      the stored logs of the previous dates (most recent first, missing ones
      skipped) and the stored logs of the week's other dates. */
  function RecalcInput(saved: map<string, DailyLog>, log: DailyLog, player: Player, currentDate: string,
                       weekDates: seq<string>, prevDates: seq<string>): DailyAggregator.DailyCalcInput
  {
    DailyAggregator.DailyCalcInput(log, player, StoredLogs(saved, prevDates),
                                   StoredLogs(saved, OtherDates(weekDates, currentDate)))
  }

  /** The log with the engine's result written in. */
  function Recalculated(log: DailyLog, r: DailyAggregator.DailyCalcResult): DailyLog
  {
    log.(rewards := r.rewards, mathMultiplier := r.mathMultiplier, streakDay := r.streakDay)
  }

  class DailyLogStore {
    var currentLog: Option<DailyLog>
    var currentDate: string
    /** The stored logs by date. */
    var saved: map<string, DailyLog>
    /** The player the rewards are computed for, when one is loaded. */
    var player: Option<Player>
    /** The rewards handed to the player, one entry per crediting save. */
    var credited: seq<DailyRewards>

    constructor (today: string, saved: map<string, DailyLog>, player: Option<Player>)
      ensures currentLog.None? && currentDate == today && this.saved == saved && this.player == player && credited == []
    {
      currentLog := None;
      currentDate := today;
      this.saved := saved;
      this.player := player;
      credited := [];
    }

    /** `loadDate`: the stored log of the date, or an empty one. */
    method LoadDate(date: string)
      modifies this
      ensures currentDate == date
      ensures currentLog == Some(if date in saved then saved[date] else CreateEmptyLog(date))
      ensures saved == old(saved) && player == old(player) && credited == old(credited)
    {
      currentDate := date;
      currentLog := Some(if date in saved then saved[date] else CreateEmptyLog(date));
    }

    /** `recalculate`: nothing without a log or a player; otherwise the
        engine's rewards, multiplier and streak day for the assembled input
        written into the log. */
    method Recalculate(weekDates: seq<string>, prevDates: seq<string>)
      modifies this
      ensures old(currentLog).None? || player.None? ==> currentLog == old(currentLog)
      ensures old(currentLog).Some? && player.Some? ==>
                currentLog == Some(Recalculated(old(currentLog).value,
                  DailyAggregator.DailyResult(RecalcInput(saved, old(currentLog).value, player.value, currentDate, weekDates, prevDates))))
      ensures currentDate == old(currentDate) && saved == old(saved) && player == old(player) && credited == old(credited)
    {
      if currentLog.None? || player.None? {
        return;
      }
      var others := OtherDates(weekDates, currentDate);
      var previousLogs := ReadLogs(saved, prevDates);
      var weekLogs := ReadLogs(saved, others);
      var result := DailyAggregator.CalcDailyRewards(DailyAggregator.DailyCalcInput(currentLog.value, player.value, previousLogs, weekLogs));
      currentLog := Some(currentLog.value.(rewards := result.rewards, mathMultiplier := result.mathMultiplier, streakDay := result.streakDay));
    }

    /** `save`: recalculate, store the log under its date, and credit the
        player only when the day's total gold is positive. */
    method Save(weekDates: seq<string>, prevDates: seq<string>)
      modifies this
      ensures old(currentLog).None? ==> currentLog == old(currentLog) && saved == old(saved) && credited == old(credited)
      ensures old(currentLog).Some? ==>
                currentLog.Some? &&
                (player.Some? ==> currentLog == Some(Recalculated(old(currentLog).value,
                   DailyAggregator.DailyResult(RecalcInput(old(saved), old(currentLog).value, player.value, currentDate, weekDates, prevDates))))) &&
                (player.None? ==> currentLog == old(currentLog)) &&
                saved == old(saved)[currentDate := currentLog.value] &&
                credited == old(credited) + (if player.Some? && currentLog.value.rewards.totalGold > 0 then [currentLog.value.rewards] else [])
      ensures currentDate == old(currentDate) && player == old(player)
    {
      if currentLog.None? {
        return;
      }
      Recalculate(weekDates, prevDates);
      saved := saved[currentDate := currentLog.value];
      if player.Some? && currentLog.value.rewards.totalGold > 0 {
        credited := credited + [currentLog.value.rewards];
      }
    }

    /** `updateHomework`, `updateMath`, `updateJuggling`: the changes merged
        into that one task; nothing without a log. */
    method UpdateHomework(changes: HomeworkChanges)
      modifies this
      ensures currentLog == if old(currentLog).None? then None
                            else Some(old(currentLog).value.(homework := MergeHomework(old(currentLog).value.homework, changes)))
      ensures currentDate == old(currentDate) && saved == old(saved) && player == old(player) && credited == old(credited)
    {
      if currentLog.None? {
        return;
      }
      currentLog := Some(currentLog.value.(homework := MergeHomework(currentLog.value.homework, changes)));
    }

    method UpdateMath(changes: MathChanges)
      modifies this
      ensures currentLog == if old(currentLog).None? then None
                            else Some(old(currentLog).value.(math := MergeMath(old(currentLog).value.math, changes)))
      ensures currentDate == old(currentDate) && saved == old(saved) && player == old(player) && credited == old(credited)
    {
      if currentLog.None? {
        return;
      }
      currentLog := Some(currentLog.value.(math := MergeMath(currentLog.value.math, changes)));
    }

    method UpdateJuggling(changes: JugglingChanges)
      modifies this
      ensures currentLog == if old(currentLog).None? then None
                            else Some(old(currentLog).value.(juggling := MergeJuggling(old(currentLog).value.juggling, changes)))
      ensures currentDate == old(currentDate) && saved == old(saved) && player == old(player) && credited == old(credited)
    {
      if currentLog.None? {
        return;
      }
      currentLog := Some(currentLog.value.(juggling := MergeJuggling(currentLog.value.juggling, changes)));
    }

    /** `addLanguage`: the session appended; nothing without a log. */
    method AddLanguage(lang: LanguageTask)
      modifies this
      ensures currentLog == if old(currentLog).None? then None
                            else Some(old(currentLog).value.(languages := old(currentLog).value.languages + [lang]))
      ensures currentDate == old(currentDate) && saved == old(saved) && player == old(player) && credited == old(credited)
    {
      if currentLog.None? {
        return;
      }
      currentLog := Some(currentLog.value.(languages := currentLog.value.languages + [lang]));
    }

    /** `removeLanguage`: `splice(index, 1)` on the sessions. */
    method RemoveLanguage(index: int)
      modifies this
      ensures currentLog == if old(currentLog).None? then None
                            else Some(old(currentLog).value.(languages := Seqs.SpliceOut(old(currentLog).value.languages, index)))
      ensures currentDate == old(currentDate) && saved == old(saved) && player == old(player) && credited == old(credited)
    {
      if currentLog.None? {
        return;
      }
      currentLog := Some(currentLog.value.(languages := Seqs.SpliceOut(currentLog.value.languages, index)));
    }

    /** `addRandomDrop`: the drop appended; nothing without a log. */
    method AddRandomDrop(drop: RandomDrop)
      modifies this
      ensures currentLog == if old(currentLog).None? then None
                            else Some(old(currentLog).value.(randomDrops := old(currentLog).value.randomDrops + [drop]))
      ensures currentDate == old(currentDate) && saved == old(saved) && player == old(player) && credited == old(credited)
    {
      if currentLog.None? {
        return;
      }
      currentLog := Some(currentLog.value.(randomDrops := currentLog.value.randomDrops + [drop]));
    }

    /** `removeRandomDrop`: `splice(index, 1)` on the drops. */
    method RemoveRandomDrop(index: int)
      modifies this
      ensures currentLog == if old(currentLog).None? then None
                            else Some(old(currentLog).value.(randomDrops := Seqs.SpliceOut(old(currentLog).value.randomDrops, index)))
      ensures currentDate == old(currentDate) && saved == old(saved) && player == old(player) && credited == old(credited)
    {
      if currentLog.None? {
        return;
      }
      currentLog := Some(currentLog.value.(randomDrops := Seqs.SpliceOut(currentLog.value.randomDrops, index)));
    }
  }

  /** Adding a session and removing the last one gives the sessions back. */
  lemma AddThenRemoveLanguage(langs: seq<LanguageTask>, lang: LanguageTask)
    ensures Seqs.SpliceOut(langs + [lang], -1) == langs
  {
  }
}
