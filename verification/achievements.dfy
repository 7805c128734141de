/** The achievement registry (src/engine/achievements.ts): one checker per
    achievement id, and the scan that unlocks, in definition order, every
    achievement not yet unlocked whose checker holds today. */
module Achievements {
  import opened Types
  import opened Constants
  import Seqs
  import LanguageBonus

  /** What the checkers see: the player, today's log, the stored logs and
      the ids already unlocked. */
  datatype CheckContext = CheckContext(
    player: Player, todayLog: DailyLog, allLogs: seq<DailyLog>, unlockedIds: set<string>)

  const MATH_GENIUS_PROBLEMS := 50
  const FRENCH_LOVER_DAYS := 20
  const GOLD_HOARDER_GOLD := 1000

  /** The ids that have a checker; any other id never unlocks. */
  const CHECKER_IDS: set<string> := {
    "first-perfect", "math-genius", "streak-7", "streak-30",
    "language-master", "french-lover", "dungeon-master", "gold-hoarder"
  }

  /** The problems of the logs whose math was completed. */
  function MathProblems(logs: seq<DailyLog>): nat
  {
    if logs == [] then 0
    else
      var last := logs[|logs| - 1];
      MathProblems(logs[..|logs| - 1]) + (if last.math.completed then last.math.problems else 0)
  }

  /** Homework, math and juggling completed, and at least one language session. */
  predicate PerfectDay(log: DailyLog)
  {
    log.homework.completed && log.math.completed && log.juggling.completed &&
    exists j :: 0 <= j < |log.languages| && log.languages[j].completed
  }

  /** The condition each registered checker tests, today counted as one more log. */
  predicate Unlocks(id: string, ctx: CheckContext)
  {
    if id == "first-perfect" then PerfectDay(ctx.todayLog)
    else if id == "math-genius" then MathProblems(ctx.allLogs + [ctx.todayLog]) >= MATH_GENIUS_PROBLEMS
    else if id == "streak-7" then ctx.todayLog.streakDay >= 7
    else if id == "streak-30" then ctx.todayLog.streakDay >= 30
    else if id == "language-master" then LanguageBonus.HasLanguageCombo(ctx.todayLog.languages)
    else if id == "french-lover" then LanguageBonus.CountFrenchDays(ctx.allLogs + [ctx.todayLog]) >= FRENCH_LOVER_DAYS
    else if id == "gold-hoarder" then ctx.player.gold >= GOLD_HOARDER_GOLD
    else false
  }

  /** Adding up one more log's problems. */
  lemma MathProblemsSnoc(logs: seq<DailyLog>, log: DailyLog)
    ensures MathProblems(logs + [log]) == MathProblems(logs) + (if log.math.completed then log.math.problems else 0)
  {
    assert (logs + [log])[..|logs|] == logs;
  }

  /** The `math-genius` checker: the stored logs' completed problems, then today's. */
  method MathGenius(ctx: CheckContext) returns (b: bool)
    ensures b <==> Unlocks("math-genius", ctx)
  {
    var total := 0;
    for i := 0 to |ctx.allLogs|
      invariant total == MathProblems(ctx.allLogs[..i])
    {
      var log := ctx.allLogs[i];
      MathProblemsSnoc(ctx.allLogs[..i], log);
      assert ctx.allLogs[..i + 1] == ctx.allLogs[..i] + [log];
      if log.math.completed {
        total := total + log.math.problems;
      }
    }
    assert ctx.allLogs[..|ctx.allLogs|] == ctx.allLogs;
    MathProblemsSnoc(ctx.allLogs, ctx.todayLog);
    if ctx.todayLog.math.completed {
      total := total + ctx.todayLog.math.problems;
    }
    b := total >= MATH_GENIUS_PROBLEMS;
  }

  /** The `french-lover` checker: the stored logs' French days, then today. */
  method FrenchLover(ctx: CheckContext) returns (b: bool)
    ensures b <==> Unlocks("french-lover", ctx)
  {
    var p := (log: DailyLog) => LanguageBonus.FrenchDone(log.languages);
    var count := 0;
    for i := 0 to |ctx.allLogs|
      invariant count == Seqs.Count(ctx.allLogs[..i], p)
    {
      Seqs.CountSnoc(ctx.allLogs[..i], ctx.allLogs[i], p);
      assert ctx.allLogs[..i + 1] == ctx.allLogs[..i] + [ctx.allLogs[i]];
      if LanguageBonus.FrenchDone(ctx.allLogs[i].languages) {
        count := count + 1;
      }
    }
    assert ctx.allLogs[..|ctx.allLogs|] == ctx.allLogs;
    if LanguageBonus.FrenchDone(ctx.todayLog.languages) {
      count := count + 1;
    }
    FrenchDaysWithToday(ctx);
    b := count >= FRENCH_LOVER_DAYS;
  }

  /** Today counts as one more French day when it has French. */
  lemma FrenchDaysWithToday(ctx: CheckContext)
    ensures Unlocks("french-lover", ctx) <==>
              LanguageBonus.CountFrenchDays(ctx.allLogs) + (if LanguageBonus.FrenchDone(ctx.todayLog.languages) then 1 else 0)
                >= FRENCH_LOVER_DAYS
  {
    Seqs.CountSnoc(ctx.allLogs, ctx.todayLog, (log: DailyLog) => LanguageBonus.FrenchDone(log.languages));
  }

  /** `checkers[id]`: whether a checker is registered for the id, and whether it holds. */
  method RunChecker(id: string, ctx: CheckContext) returns (registered: bool, holds: bool)
    ensures registered <==> id in CHECKER_IDS
    ensures holds <==> registered && Unlocks(id, ctx)
  {
    registered := id in CHECKER_IDS;
    if id == "math-genius" {
      holds := MathGenius(ctx);
    } else if id == "french-lover" {
      holds := FrenchLover(ctx);
    } else {
      holds := registered && Unlocks(id, ctx);
    }
  }

  /** A definition as unlocked today. */
  function Stamp(def: Achievement, date: string): Achievement
  {
    def.(unlockedAt := Some(date))
  }

  /** Whether the scan unlocks a definition. */
  predicate Eligible(def: Achievement, ctx: CheckContext)
  {
    def.id !in ctx.unlockedIds && def.id in CHECKER_IDS && Unlocks(def.id, ctx)
  }

  /** The achievements the scan of the first `n` definitions unlocks, in order. */
  function Unlocked(defs: seq<Achievement>, ctx: CheckContext, n: nat): seq<Achievement>
    requires n <= |defs|
  {
    if n == 0 then []
    else
      Unlocked(defs, ctx, n - 1) +
      (if Eligible(defs[n - 1], ctx) then [Stamp(defs[n - 1], ctx.todayLog.date)] else [])
  }

  /** `checkAchievements`: the newly unlocked achievements. */
  method CheckAchievements(ctx: CheckContext) returns (newlyUnlocked: seq<Achievement>)
    ensures newlyUnlocked == Unlocked(ACHIEVEMENT_DEFINITIONS, ctx, |ACHIEVEMENT_DEFINITIONS|)
  {
    newlyUnlocked := Scan(ACHIEVEMENT_DEFINITIONS, ctx);
  }

  /** The loop of `checkAchievements`, over any list of definitions. */
  method Scan(defs: seq<Achievement>, ctx: CheckContext) returns (newlyUnlocked: seq<Achievement>)
    ensures newlyUnlocked == Unlocked(defs, ctx, |defs|)
  {
    newlyUnlocked := [];
    for i := 0 to |defs|
      invariant newlyUnlocked == Unlocked(defs, ctx, i)
    {
      var def := defs[i];
      if def.id in ctx.unlockedIds {
        continue;
      }
      var registered, holds := RunChecker(def.id, ctx);
      if registered && holds {
        newlyUnlocked := newlyUnlocked + [Stamp(def, ctx.todayLog.date)];
      }
    }
  }

  /** Every unlocked achievement is some eligible definition stamped with
      today's date; so none was unlocked before, and `dungeon-master`,
      whose checker never holds, is never among them. */
  lemma {:induction false} UnlockedAreEligible(defs: seq<Achievement>, ctx: CheckContext, n: nat, k: int)
    requires n <= |defs| && 0 <= k < |Unlocked(defs, ctx, n)|
    ensures exists i :: 0 <= i < n && Eligible(defs[i], ctx) && Unlocked(defs, ctx, n)[k] == Stamp(defs[i], ctx.todayLog.date)
    ensures Unlocked(defs, ctx, n)[k].id !in ctx.unlockedIds
    ensures Unlocked(defs, ctx, n)[k].unlockedAt == Some(ctx.todayLog.date)
    ensures Unlocked(defs, ctx, n)[k].id != "dungeon-master"
  {
    if k < |Unlocked(defs, ctx, n - 1)| {
      UnlockedAreEligible(defs, ctx, n - 1, k);
    } else {
      assert Eligible(defs[n - 1], ctx) && Unlocked(defs, ctx, n)[k] == Stamp(defs[n - 1], ctx.todayLog.date);
    }
  }

  /** Every eligible definition is unlocked. */
  lemma {:induction false} EligibleAreUnlocked(defs: seq<Achievement>, ctx: CheckContext, n: nat, i: int)
    requires n <= |defs| && 0 <= i < n && Eligible(defs[i], ctx)
    ensures Stamp(defs[i], ctx.todayLog.date) in Unlocked(defs, ctx, n)
  {
    if i < n - 1 {
      EligibleAreUnlocked(defs, ctx, n - 1, i);
    }
  }

  /** The stamped copies of a list of definitions. */
  function StampAll(defs: seq<Achievement>, date: string): (r: seq<Achievement>)
    ensures |r| == |defs|
    ensures forall i :: 0 <= i < |defs| ==> r[i] == Stamp(defs[i], date)
  {
    seq(|defs|, i requires 0 <= i < |defs| => Stamp(defs[i], date))
  }

  /** Filtering one more definition and stamping the survivors. */
  lemma StampFilterSnoc(xs: seq<Achievement>, x: Achievement, p: Achievement -> bool, date: string)
    ensures StampAll(Seqs.Filter(xs + [x], p), date) ==
            StampAll(Seqs.Filter(xs, p), date) + (if p(x) then [Stamp(x, date)] else [])
  {
    Seqs.FilterAppend(xs, [x], p);
    assert [x][1..] == [];
    var a, b := Seqs.Filter(xs, p), Seqs.Filter([x], p);
    assert StampAll(a + b, date) == StampAll(a, date) + StampAll(b, date);
  }

  /** The result follows definition order: it is the eligible definitions,
      filtered in order, each stamped. */
  lemma {:induction false} UnlockedInDefinitionOrder(defs: seq<Achievement>, ctx: CheckContext, n: nat)
    requires n <= |defs|
    ensures Unlocked(defs, ctx, n) == StampAll(Seqs.Filter(defs[..n], d => Eligible(d, ctx)), ctx.todayLog.date)
  {
    var p := d => Eligible(d, ctx);
    if n > 0 {
      UnlockedInDefinitionOrder(defs, ctx, n - 1);
      assert defs[..n] == defs[..n - 1] + [defs[n - 1]];
      StampFilterSnoc(defs[..n - 1], defs[n - 1], p, ctx.todayLog.date);
    } else {
      assert defs[..0] == [];
    }
  }

  /** Whatever today's streak, reaching the 30-day mark also meets the 7-day one. */
  lemma Streak30ImpliesStreak7(ctx: CheckContext)
    ensures Unlocks("streak-30", ctx) ==> Unlocks("streak-7", ctx)
  {
  }

  /** `dungeon-master` is registered but its checker is always false. */
  lemma DungeonMasterNeverUnlocks(ctx: CheckContext)
    ensures "dungeon-master" in CHECKER_IDS && !Unlocks("dungeon-master", ctx)
  {
  }

  /** Every definition has a checker, and the definition ids are distinct. */
  lemma EveryDefinitionRegistered()
    ensures forall i :: 0 <= i < |ACHIEVEMENT_DEFINITIONS| ==> ACHIEVEMENT_DEFINITIONS[i].id in CHECKER_IDS
    ensures forall i, j :: 0 <= i < j < |ACHIEVEMENT_DEFINITIONS| ==> ACHIEVEMENT_DEFINITIONS[i].id != ACHIEVEMENT_DEFINITIONS[j].id
  {
  }

  /** Once math-genius holds, more stored logs keep it holding. */
  lemma MathGeniusStays(ctx: CheckContext, more: seq<DailyLog>)
    requires Unlocks("math-genius", ctx)
    ensures Unlocks("math-genius", ctx.(allLogs := more + ctx.allLogs))
  {
    var today := [ctx.todayLog];
    assert more + ctx.allLogs + today == more + (ctx.allLogs + today);
    MathProblemsPrefix(more, ctx.allLogs + today);
  }

  /** Stored logs in front add to the total too. */
  lemma {:induction false} MathProblemsPrefix(a: seq<DailyLog>, b: seq<DailyLog>)
    ensures MathProblems(a + b) >= MathProblems(b)
    decreases |b|
  {
    if b == [] {
    } else {
      var front := b[..|b| - 1];
      assert a + b == (a + front) + [b[|b| - 1]];
      assert b == front + [b[|b| - 1]];
      MathProblemsSnoc(a + front, b[|b| - 1]);
      MathProblemsSnoc(front, b[|b| - 1]);
      MathProblemsPrefix(a, front);
    }
  }
}
