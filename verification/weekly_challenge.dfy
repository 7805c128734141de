/** Weekly challenges (src/engine/weekly-challenge.ts): progress counted over
    the week's logs, and the rewards of every completed challenge plus a bonus
    when enough of them are completed. */
module WeeklyChallenges {
  import opened Types
  import opened Constants
  import Seqs
  import Strings

  /** What a challenge counts, chosen from its id. */
  datatype ChallengeKind = HomeworkDays | HardMathDays | LanguageDays | Unknown

  /** The first of `homework`, `math`, `language` that occurs in the id
      decides; an id with none of them counts nothing. */
  function KindOf(id: string): (k: ChallengeKind)
    ensures k == HomeworkDays <==> Strings.Contains(id, "homework")
    ensures k == HardMathDays <==> !Strings.Contains(id, "homework") && Strings.Contains(id, "math")
    ensures k == LanguageDays <==>
              !Strings.Contains(id, "homework") && !Strings.Contains(id, "math") && Strings.Contains(id, "language")
  {
    if Strings.Contains(id, "homework") then HomeworkDays
    else if Strings.Contains(id, "math") then HardMathDays
    else if Strings.Contains(id, "language") then LanguageDays
    else Unknown
  }

  /** A day whose homework was completed at perfect or good quality. */
  predicate GoodHomeworkDay(log: DailyLog)
  {
    log.homework.completed && (log.homework.quality == Perfect || log.homework.quality == Good)
  }

  /** A day whose math was completed at hard difficulty or above. */
  predicate HardMathDay(log: DailyLog)
  {
    log.math.completed && (log.math.difficulty == Hard || log.math.difficulty == Competition || log.math.difficulty == Olympiad)
  }

  /** A day with at least one completed language session of any kind. */
  predicate LanguageDay(log: DailyLog)
  {
    exists j :: 0 <= j < |log.languages| && log.languages[j].completed
  }

  /** The number of the week's days a challenge kind counts. */
  function DaysCounted(kind: ChallengeKind, weekLogs: seq<DailyLog>): (n: nat)
    ensures n <= |weekLogs|
    ensures kind == Unknown ==> n == 0
  {
    match kind
    case HomeworkDays => Seqs.Count(weekLogs, GoodHomeworkDay)
    case HardMathDays => Seqs.Count(weekLogs, HardMathDay)
    case LanguageDays => Seqs.Count(weekLogs, LanguageDay)
    case Unknown => 0
  }

  /** One challenge re-counted: its current value is the number of days its
      kind counts, it is completed once that reaches the target, and nothing
      else about it changes. */
  function UpdateChallenge(challenge: WeeklyChallenge, weekLogs: seq<DailyLog>): (r: WeeklyChallenge)
    ensures 0 <= r.current <= |weekLogs|
    ensures r.current == DaysCounted(KindOf(challenge.id), weekLogs)
    ensures r.completed <==> r.current >= challenge.target
    ensures r == challenge.(current := r.current, completed := r.completed)
  {
    var current := DaysCounted(KindOf(challenge.id), weekLogs);
    challenge.(current := current, completed := current >= challenge.target)
  }

  /** `updateChallengeProgress`: every challenge re-counted, in place. */
  function UpdateChallengeProgress(challenges: seq<WeeklyChallenge>, weekLogs: seq<DailyLog>): (r: seq<WeeklyChallenge>)
    ensures |r| == |challenges|
    ensures forall i :: 0 <= i < |challenges| ==> r[i] == UpdateChallenge(challenges[i], weekLogs)
  {
    seq(|challenges|, i requires 0 <= i < |challenges| => UpdateChallenge(challenges[i], weekLogs))
  }

  /** Progress depends only on the week's logs: counting again changes nothing. */
  lemma UpdateChallengeIdempotent(challenges: seq<WeeklyChallenge>, weekLogs: seq<DailyLog>)
    ensures UpdateChallengeProgress(UpdateChallengeProgress(challenges, weekLogs), weekLogs) ==
            UpdateChallengeProgress(challenges, weekLogs)
  {
    var once := UpdateChallengeProgress(challenges, weekLogs);
    forall i | 0 <= i < |challenges|
      ensures UpdateChallenge(once[i], weekLogs) == once[i]
    {
    }
  }

  /** A default challenge of the week counts what its id names first: the
      homework challenge counts good homework days whatever the week id. */
  lemma DefaultHomeworkChallengeKind(weekId: string)
    ensures KindOf(CreateDefaultWeeklyChallenges(weekId)[0].id) == HomeworkDays
  {
    Strings.ContainsInfix(weekId + "-homework-5", weekId + "-", "homework", "-5");
  }

  /** A week without logs completes no challenge with a positive target. */
  lemma EmptyWeekCompletesNothing(challenges: seq<WeeklyChallenge>, i: int)
    requires 0 <= i < |challenges| && challenges[i].target > 0
    ensures !UpdateChallengeProgress(challenges, [])[i].completed
  {
  }

  // ==================== Rewards ====================

  predicate IsCompleted(c: WeeklyChallenge)
  {
    c.completed
  }

  /** The line of a completed challenge. */
  function ChallengeItem(c: WeeklyChallenge): BreakdownItem
  {
    Item(ChallengeLine(c.title), c.reward.gold, c.reward.xp, c.reward.stars)
  }

  /** The bonus line, which names how many of how many challenges were completed. */
  function BonusItem(completedCount: int, total: int): BreakdownItem
  {
    Item(ChallengeBonusLine(completedCount, total),
         WEEKLY_CHALLENGE_BONUS.gold, WEEKLY_CHALLENGE_BONUS.xp, WEEKLY_CHALLENGE_BONUS.stars)
  }

  /** The lines of the completed challenges among the first `n`, in list order. */
  function CompletedLines(cs: seq<WeeklyChallenge>, n: nat): seq<BreakdownItem>
    requires n <= |cs|
  {
    if n == 0 then []
    else CompletedLines(cs, n - 1) + IfItem(cs[n - 1].completed, ChallengeItem(cs[n - 1]))
  }

  /** The result of `calcWeeklyChallengeRewards`. */
  datatype ChallengeResult = ChallengeResult(
    challenges: seq<WeeklyChallenge>, completedCount: int, bonusEarned: bool, rewards: Reward)

  /** `calcWeeklyChallengeRewards`: the challenges unchanged, the number
      completed, the bonus exactly when that number reaches the threshold,
      and totals that are the sums of the completed challenges' lines
      followed by the bonus line. */
  method CalcWeeklyChallengeRewards(challenges: seq<WeeklyChallenge>) returns (r: ChallengeResult)
    ensures r.challenges == challenges
    ensures r.completedCount == Seqs.Count(challenges, IsCompleted)
    ensures r.bonusEarned <==> r.completedCount >= WEEKLY_CHALLENGE_BONUS_THRESHOLD
    ensures r.rewards == OfLines(CompletedLines(challenges, |challenges|) +
                                 IfItem(r.bonusEarned, BonusItem(r.completedCount, |challenges|)))
  {
    var gold, xp, stars, breakdown := 0, 0, 0, [];
    var completedCount := Seqs.Count(challenges, IsCompleted);
    for i := 0 to |challenges|
      invariant Reward(gold, xp, stars, breakdown) == OfLines(CompletedLines(challenges, i))
    {
      var challenge := challenges[i];
      OfLinesAddIf(breakdown, challenge.completed, ChallengeItem(challenge));
      if challenge.completed {
        gold := gold + challenge.reward.gold;
        xp := xp + challenge.reward.xp;
        stars := stars + challenge.reward.stars;
        breakdown := breakdown + [ChallengeItem(challenge)];
      }
    }
    var bonusEarned := completedCount >= WEEKLY_CHALLENGE_BONUS_THRESHOLD;
    var bonus := BonusItem(completedCount, |challenges|);
    OfLinesAddIf(breakdown, bonusEarned, bonus);
    if bonusEarned {
      gold := gold + bonus.gold;
      xp := xp + bonus.xp;
      stars := stars + bonus.stars;
      breakdown := breakdown + [bonus];
    }
    r := ChallengeResult(challenges, completedCount, bonusEarned, Reward(gold, xp, stars, breakdown));
  }

  /** Every completed challenge is paid, whether or not it was completed
      before: each completed challenge's line is among the lines. */
  lemma {:induction false} EveryCompletedChallengePaid(cs: seq<WeeklyChallenge>, n: nat)
    requires n <= |cs|
    ensures forall i :: 0 <= i < n && cs[i].completed ==> ChallengeItem(cs[i]) in CompletedLines(cs, n)
  {
    if n > 0 {
      EveryCompletedChallengePaid(cs, n - 1);
    }
  }

  /** There is one line per completed challenge. */
  lemma {:induction false} OneLinePerCompletedChallenge(cs: seq<WeeklyChallenge>, n: nat)
    requires n <= |cs|
    ensures |CompletedLines(cs, n)| == Seqs.Count(cs[..n], IsCompleted)
  {
    if n > 0 {
      OneLinePerCompletedChallenge(cs, n - 1);
      Seqs.CountSnoc(cs[..n - 1], cs[n - 1], IsCompleted);
      assert cs[..n - 1] + [cs[n - 1]] == cs[..n];
    }
  }

  /** Every line pays for a completed challenge. */
  lemma {:induction false} OnlyCompletedChallengesPaid(cs: seq<WeeklyChallenge>, n: nat, k: int)
    requires n <= |cs| && 0 <= k < |CompletedLines(cs, n)|
    ensures exists i :: 0 <= i < n && cs[i].completed && CompletedLines(cs, n)[k] == ChallengeItem(cs[i])
  {
    if k < |CompletedLines(cs, n - 1)| {
      OnlyCompletedChallengesPaid(cs, n - 1, k);
    } else {
      assert cs[n - 1].completed && CompletedLines(cs, n)[k] == ChallengeItem(cs[n - 1]);
    }
  }
}
