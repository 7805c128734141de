/** Language bonuses on top of the per-session rewards
    (src/engine/language-bonus.ts): the same-day three-language combo, the
    French run over consecutive days, and the one-shot bonus on the fifth
    French session of the week. */
module LanguageBonus {
  import opened Types
  import opened Constants
  import Seqs

  /** `langs.some(l => l.type === 'french' && l.completed)`. */
  predicate FrenchDone(langs: seq<LanguageTask>)
  {
    exists j :: 0 <= j < |langs| && langs[j].kind == French && langs[j].completed
  }

  /** The language types completed in a list of sessions. */
  function CompletedKinds(langs: seq<LanguageTask>): set<LanguageType>
  {
    set l | l in langs && l.completed :: l.kind
  }

  const ALL_LANGUAGES: set<LanguageType> := {EnglishReading, EnglishWords, French}

  /** The combo holds exactly when every language type was completed. */
  function HasLanguageCombo(langs: seq<LanguageTask>): (r: bool)
    ensures r <==> CompletedKinds(langs) == ALL_LANGUAGES
  {
    var kinds := CompletedKinds(langs);
    assert forall k :: k in kinds ==> k in ALL_LANGUAGES by {
      forall k | k in kinds ensures k in ALL_LANGUAGES {
        assert k == EnglishReading || k == EnglishWords || k == French;
      }
    }
    EnglishReading in kinds && EnglishWords in kinds && French in kinds
  }

  /** Only which sessions occur matters, not their order or repetitions. */
  lemma ComboIgnoresOrderAndRepeats(a: seq<LanguageTask>, b: seq<LanguageTask>)
    requires forall l :: l in a <==> l in b
    ensures HasLanguageCombo(a) == HasLanguageCombo(b)
  {
    assert CompletedKinds(a) == CompletedKinds(b);
  }

  /** A combo day is always a French day. */
  lemma ComboImpliesFrench(langs: seq<LanguageTask>)
    requires HasLanguageCombo(langs)
    ensures FrenchDone(langs)
  {
    assert French in CompletedKinds(langs);
    var l :| l in langs && l.completed && l.kind == French;
    var j :| 0 <= j < |langs| && langs[j] == l;
  }

  /** The number of leading logs (most recent first) with a completed French session. */
  function FrenchRun(logs: seq<DailyLog>): (r: nat)
    ensures r <= |logs|
    ensures forall j :: 0 <= j < r ==> FrenchDone(logs[j].languages)
    ensures r < |logs| ==> !FrenchDone(logs[r].languages)
  {
    if logs == [] || !FrenchDone(logs[0].languages) then 0 else 1 + FrenchRun(logs[1..])
  }

  /** `hasFrenchStreak`: today has French and, counting today, French was done
      on at least FRENCH_STREAK_DAYS consecutive days. */
  method HasFrenchStreak(todayLangs: seq<LanguageTask>, previousLogs: seq<DailyLog>) returns (b: bool)
    ensures b <==> FrenchDone(todayLangs) && 1 + FrenchRun(previousLogs) >= FRENCH_STREAK_DAYS
  {
    if !FrenchDone(todayLangs) {
      return false;
    }
    var consecutiveDays := 1;
    var i := 0;
    while i < |previousLogs|
      invariant 0 <= i <= |previousLogs|
      invariant consecutiveDays == 1 + i
      invariant forall j :: 0 <= j < i ==> FrenchDone(previousLogs[j].languages)
    {
      if FrenchDone(previousLogs[i].languages) {
        consecutiveDays := consecutiveDays + 1;
      } else {
        break;
      }
      i := i + 1;
    }
    assert FrenchRun(previousLogs) == i;
    b := consecutiveDays >= FRENCH_STREAK_DAYS;
  }

  /** The number of logs with a completed French session. */
  function CountFrenchDays(logs: seq<DailyLog>): (n: nat)
    ensures n <= |logs|
  {
    Seqs.Count(logs, (log: DailyLog) => FrenchDone(log.languages))
  }

  /** `countFrenchInWeek`: today's French session, if any, plus the French days
      among the week's other logs. */
  method CountFrenchInWeek(todayLangs: seq<LanguageTask>, weekLogs: seq<DailyLog>) returns (count: nat)
    ensures count == (if FrenchDone(todayLangs) then 1 else 0) + CountFrenchDays(weekLogs)
    ensures count <= |weekLogs| + 1
  {
    count := 0;
    if FrenchDone(todayLangs) {
      count := count + 1;
    }
    var p := (log: DailyLog) => FrenchDone(log.languages);
    for i := 0 to |weekLogs|
      invariant count == (if FrenchDone(todayLangs) then 1 else 0) + Seqs.Count(weekLogs[..i], p)
    {
      Seqs.CountSnoc(weekLogs[..i], weekLogs[i], p);
      assert weekLogs[..i + 1] == weekLogs[..i] + [weekLogs[i]];
      if FrenchDone(weekLogs[i].languages) {
        count := count + 1;
      }
    }
    assert weekLogs[..|weekLogs|] == weekLogs;
  }

  datatype LanguageBonusResult = LanguageBonusResult(
    reward: Reward, hasCombo: bool, hasFrenchStreak: bool, hasFrenchWeekly: bool)

  const COMBO_LINE := Item(LanguageComboLine, LANGUAGE_COMBO_GOLD, LANGUAGE_COMBO_XP, LANGUAGE_COMBO_STARS)
  const FRENCH_STREAK_LINE := Item(FrenchStreakLine(FRENCH_STREAK_DAYS), FRENCH_STREAK_GOLD, 0, FRENCH_STREAK_STARS)
  const FRENCH_WEEKLY_LINE := Item(FrenchWeeklyLine(FRENCH_WEEKLY_COUNT), FRENCH_WEEKLY_GOLD, 0, FRENCH_WEEKLY_STARS)

  /** Whether today's session is the one that reaches the weekly French count. */
  predicate PaysFrenchWeekly(todayLangs: seq<LanguageTask>, weekLogs: seq<DailyLog>)
  {
    FrenchDone(todayLangs) && CountFrenchDays(weekLogs) == FRENCH_WEEKLY_COUNT - 1
  }

  /** The three bonus lines are told apart by what they were paid for. */
  lemma BonusLinesDistinct()
    ensures COMBO_LINE.source != FRENCH_STREAK_LINE.source
    ensures FRENCH_WEEKLY_LINE.source != COMBO_LINE.source && FRENCH_WEEKLY_LINE.source != FRENCH_STREAK_LINE.source
  {
  }

  /** The bonus lines and totals once it is known which bonuses are paid:
      combo, French run, French weekly, in that order, each line present
      exactly when its bonus is paid; the combo and the French run pay gold,
      the weekly bonus pays a star, no bonus pays XP. */
  function AssembleBonus(combo: bool, streak: bool, pays: bool, weekly: bool): (r: LanguageBonusResult)
    ensures r.hasCombo == combo && r.hasFrenchStreak == streak && r.hasFrenchWeekly == weekly
    ensures r.reward.breakdown ==
              (if combo then [COMBO_LINE] else []) + (if streak then [FRENCH_STREAK_LINE] else []) +
              (if pays then [FRENCH_WEEKLY_LINE] else [])
    ensures r.reward.gold == (if combo then LANGUAGE_COMBO_GOLD else 0) + (if streak then FRENCH_STREAK_GOLD else 0)
    ensures r.reward.stars == (if pays then FRENCH_WEEKLY_STARS else 0) && r.reward.xp == 0
  {
    var withCombo := if combo then NO_REWARD.Append(Line(COMBO_LINE)) else NO_REWARD;
    var withStreak := if streak then withCombo.Append(Line(FRENCH_STREAK_LINE)) else withCombo;
    var withWeekly := if pays then withStreak.Append(Line(FRENCH_WEEKLY_LINE)) else withStreak;
    LanguageBonusResult(withWeekly, combo, streak, weekly)
  }

  /** The totals are the sums of the lines, and never negative. */
  lemma AssembleBonusBalanced(combo: bool, streak: bool, pays: bool, weekly: bool)
    ensures AssembleBonus(combo, streak, pays, weekly).reward.Balanced()
    ensures AssembleBonus(combo, streak, pays, weekly).reward.NonNegative()
  {
    var withCombo := if combo then NO_REWARD.Append(Line(COMBO_LINE)) else NO_REWARD;
    AppendBalanced(NO_REWARD, Line(COMBO_LINE));
    AppendBalanced(withCombo, Line(FRENCH_STREAK_LINE));
    var withStreak := if streak then withCombo.Append(Line(FRENCH_STREAK_LINE)) else withCombo;
    AppendBalanced(withStreak, Line(FRENCH_WEEKLY_LINE));
  }

  /** The weekly line is in the breakdown exactly when the weekly bonus is paid. */
  lemma WeeklyLineIffPaid(combo: bool, streak: bool, pays: bool, weekly: bool)
    ensures FRENCH_WEEKLY_LINE in AssembleBonus(combo, streak, pays, weekly).reward.breakdown <==> pays
  {
    BonusLinesDistinct();
    var a: seq<BreakdownItem> := if combo then [COMBO_LINE] else [];
    var b: seq<BreakdownItem> := if streak then [FRENCH_STREAK_LINE] else [];
    assert FRENCH_WEEKLY_LINE !in a + b;
  }

  /** `calcLanguageBonus` as a function of its inputs. */
  function LanguageBonus(todayLangs: seq<LanguageTask>, previousLogs: seq<DailyLog>, weekLogs: seq<DailyLog>): (r: LanguageBonusResult)
    ensures r.hasCombo == HasLanguageCombo(todayLangs)
    ensures r.hasFrenchStreak <==> FrenchDone(todayLangs) && 1 + FrenchRun(previousLogs) >= FRENCH_STREAK_DAYS
    ensures r.hasFrenchWeekly <==> (if FrenchDone(todayLangs) then 1 else 0) + CountFrenchDays(weekLogs) >= FRENCH_WEEKLY_COUNT
  {
    AssembleBonus(
      HasLanguageCombo(todayLangs),
      FrenchDone(todayLangs) && 1 + FrenchRun(previousLogs) >= FRENCH_STREAK_DAYS,
      PaysFrenchWeekly(todayLangs, weekLogs),
      (if FrenchDone(todayLangs) then 1 else 0) + CountFrenchDays(weekLogs) >= FRENCH_WEEKLY_COUNT)
  }

  /** The lines, in order, each present exactly when its bonus is paid; the
      weekly line is paid only on the day that reaches the weekly count; the
      totals add up the lines. */
  lemma LanguageBonusLines(todayLangs: seq<LanguageTask>, previousLogs: seq<DailyLog>, weekLogs: seq<DailyLog>)
    ensures var r := LanguageBonus(todayLangs, previousLogs, weekLogs);
            r.reward.breakdown ==
              (if r.hasCombo then [COMBO_LINE] else []) +
              (if r.hasFrenchStreak then [FRENCH_STREAK_LINE] else []) +
              (if PaysFrenchWeekly(todayLangs, weekLogs) then [FRENCH_WEEKLY_LINE] else []) &&
            r.reward.Balanced() && r.reward.NonNegative() &&
            r.reward.gold == (if r.hasCombo then LANGUAGE_COMBO_GOLD else 0) + (if r.hasFrenchStreak then FRENCH_STREAK_GOLD else 0) &&
            r.reward.stars == (if PaysFrenchWeekly(todayLangs, weekLogs) then FRENCH_WEEKLY_STARS else 0) &&
            r.reward.xp == 0
  {
    var combo := HasLanguageCombo(todayLangs);
    var streak := FrenchDone(todayLangs) && 1 + FrenchRun(previousLogs) >= FRENCH_STREAK_DAYS;
    var pays := PaysFrenchWeekly(todayLangs, weekLogs);
    var weekly := (if FrenchDone(todayLangs) then 1 else 0) + CountFrenchDays(weekLogs) >= FRENCH_WEEKLY_COUNT;
    assert LanguageBonus(todayLangs, previousLogs, weekLogs) == AssembleBonus(combo, streak, pays, weekly);
    AssembleBonusBalanced(combo, streak, pays, weekly);
  }

  /** `calcLanguageBonus`, accumulating the bonuses as the source does. */
  method CalcLanguageBonus(todayLangs: seq<LanguageTask>, previousLogs: seq<DailyLog>, weekLogs: seq<DailyLog>)
    returns (r: LanguageBonusResult)
    ensures r == LanguageBonus(todayLangs, previousLogs, weekLogs)
  {
    ghost var pays := PaysFrenchWeekly(todayLangs, weekLogs);
    var gold, xp, stars, breakdown := 0, 0, 0, [];
    var combo := HasLanguageCombo(todayLangs);
    if combo {
      gold, xp, stars := gold + LANGUAGE_COMBO_GOLD, xp + LANGUAGE_COMBO_XP, stars + LANGUAGE_COMBO_STARS;
      breakdown := breakdown + [COMBO_LINE];
    }
    var frenchStreak := HasFrenchStreak(todayLangs, previousLogs);
    if frenchStreak {
      gold, stars := gold + FRENCH_STREAK_GOLD, stars + FRENCH_STREAK_STARS;
      breakdown := breakdown + [FRENCH_STREAK_LINE];
    }
    var frenchCount := CountFrenchInWeek(todayLangs, weekLogs);
    var frenchWeekly := frenchCount >= FRENCH_WEEKLY_COUNT;
    if frenchWeekly {
      var prevCount := CountFrenchInWeek([], weekLogs);
      if FrenchDone(todayLangs) && prevCount == FRENCH_WEEKLY_COUNT - 1 {
        gold, stars := gold + FRENCH_WEEKLY_GOLD, stars + FRENCH_WEEKLY_STARS;
        breakdown := breakdown + [FRENCH_WEEKLY_LINE];
      }
    }
    assert LanguageBonus(todayLangs, previousLogs, weekLogs) == AssembleBonus(combo, frenchStreak, pays, frenchWeekly);
    r := LanguageBonusResult(Reward(gold, xp, stars, breakdown), combo, frenchStreak, frenchWeekly);
  }

  /** Without French today there is neither a French run nor a weekly bonus,
      nor a combo, whatever the history says. */
  lemma NoFrenchTodayNoFrenchBonus(todayLangs: seq<LanguageTask>, previousLogs: seq<DailyLog>, weekLogs: seq<DailyLog>)
    requires !FrenchDone(todayLangs)
    ensures !LanguageBonus(todayLangs, previousLogs, weekLogs).hasFrenchStreak
    ensures FRENCH_WEEKLY_LINE !in LanguageBonus(todayLangs, previousLogs, weekLogs).reward.breakdown
    ensures !LanguageBonus(todayLangs, previousLogs, weekLogs).hasCombo
  {
    var r := LanguageBonus(todayLangs, previousLogs, weekLogs);
    WeeklyLineIffPaid(r.hasCombo, r.hasFrenchStreak, PaysFrenchWeekly(todayLangs, weekLogs), r.hasFrenchWeekly);
    if HasLanguageCombo(todayLangs) {
      ComboImpliesFrench(todayLangs);
    }
  }

  /** Past the fifth session the weekly flag stays set but nothing more is paid. */
  lemma WeeklyFlagWithoutPayment(todayLangs: seq<LanguageTask>, previousLogs: seq<DailyLog>, weekLogs: seq<DailyLog>)
    requires FrenchDone(todayLangs) && CountFrenchDays(weekLogs) >= FRENCH_WEEKLY_COUNT
    ensures LanguageBonus(todayLangs, previousLogs, weekLogs).hasFrenchWeekly
    ensures FRENCH_WEEKLY_LINE !in LanguageBonus(todayLangs, previousLogs, weekLogs).reward.breakdown
  {
    var r := LanguageBonus(todayLangs, previousLogs, weekLogs);
    WeeklyLineIffPaid(r.hasCombo, r.hasFrenchStreak, PaysFrenchWeekly(todayLangs, weekLogs), r.hasFrenchWeekly);
  }
}
