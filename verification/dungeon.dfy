/** Dungeon progress and rewards (src/engine/dungeon-scoring.ts): four
    counters are tallied over every log ever kept, each stage reads the counter
    its requirement names, and rewards are paid only for what turned from
    not completed to completed. */
module DungeonScoring {
  import opened Types
  import opened Constants
  import opened LanguageBonus

  /** The four cumulative counters the stages can require. */
  datatype Counters = Counters(competitionPlus: int, olympiad: int, french: int, englishReading: int)

  /** `log.languages.some(l => l.type === 'english-reading' && l.completed)`. */
  predicate EnglishReadingDone(langs: seq<LanguageTask>)
  {
    exists j :: 0 <= j < |langs| && langs[j].kind == EnglishReading && langs[j].completed
  }

  /** One log's contribution: completed competition and olympiad problems
      count towards the first counter, olympiad problems alone towards the
      second, and a day with French or English reading adds one day. */
  function TallyStep(c: Counters, log: DailyLog): Counters
  {
    var plus := log.math.completed && (log.math.difficulty == Competition || log.math.difficulty == Olympiad);
    var olympiad := log.math.completed && log.math.difficulty == Olympiad;
    Counters(c.competitionPlus + (if plus then log.math.problems else 0),
             c.olympiad + (if olympiad then log.math.problems else 0),
             c.french + (if FrenchDone(log.languages) then 1 else 0),
             c.englishReading + (if EnglishReadingDone(log.languages) then 1 else 0))
  }

  /** The counters over a list of logs, taken in order. */
  function Tally(logs: seq<DailyLog>): Counters
  {
    if logs == [] then Counters(0, 0, 0, 0)
    else TallyStep(Tally(logs[..|logs| - 1]), logs[|logs| - 1])
  }

  /** Olympiad problems are competition-plus problems too, and the language
      counters count days, so neither exceeds the number of logs. */
  lemma {:induction false} TallyBounds(logs: seq<DailyLog>)
    ensures 0 <= Tally(logs).olympiad <= Tally(logs).competitionPlus
    ensures 0 <= Tally(logs).french <= |logs| && 0 <= Tally(logs).englishReading <= |logs|
  {
    if logs != [] {
      TallyBounds(logs[..|logs| - 1]);
    }
  }

  /** The loop of `updateDungeonProgress` over every log. */
  method TallyLogs(allLogs: seq<DailyLog>) returns (c: Counters)
    ensures c == Tally(allLogs)
  {
    var mathCompetitionPlus, mathOlympiad, frenchCount, englishReadingCount := 0, 0, 0, 0;
    for i := 0 to |allLogs|
      invariant Counters(mathCompetitionPlus, mathOlympiad, frenchCount, englishReadingCount) == Tally(allLogs[..i])
    {
      var log := allLogs[i];
      assert allLogs[..i + 1][..i] == allLogs[..i];
      if log.math.completed {
        if log.math.difficulty == Competition || log.math.difficulty == Olympiad {
          mathCompetitionPlus := mathCompetitionPlus + log.math.problems;
        }
        if log.math.difficulty == Olympiad {
          mathOlympiad := mathOlympiad + log.math.problems;
        }
      }
      if FrenchDone(log.languages) {
        frenchCount := frenchCount + 1;
      }
      if EnglishReadingDone(log.languages) {
        englishReadingCount := englishReadingCount + 1;
      }
    }
    assert allLogs[..|allLogs|] == allLogs;
    c := Counters(mathCompetitionPlus, mathOlympiad, frenchCount, englishReadingCount);
  }

  /** The counter a requirement names; an unknown requirement reads 0. */
  function CounterFor(requirement: string, c: Counters): int
  {
    if requirement == "math-competition-plus" then c.competitionPlus
    else if requirement == "math-olympiad" then c.olympiad
    else if requirement == "french-count" then c.french
    else if requirement == "english-reading-count" then c.englishReading
    else 0
  }

  /** A stage re-read from the counters: its current value is its
      requirement's counter, and it is completed once that reaches the target. */
  function UpdateStage(stage: DungeonStage, c: Counters): (r: DungeonStage)
    ensures r.current == CounterFor(stage.requirement, c)
    ensures r.completed <==> r.current >= r.target
    ensures r == stage.(current := r.current, completed := r.completed)
  {
    var current := CounterFor(stage.requirement, c);
    stage.(current := current, completed := current >= stage.target)
  }

  predicate AllStagesCompleted(stages: seq<DungeonStage>)
  {
    forall j :: 0 <= j < |stages| ==> stages[j].completed
  }

  /** A dungeon re-read from the counters: every stage updated, and the
      dungeon completed exactly when every stage is. */
  function UpdateDungeon(d: Dungeon, c: Counters): (r: Dungeon)
    ensures |r.stages| == |d.stages|
    ensures forall j :: 0 <= j < |d.stages| ==> r.stages[j] == UpdateStage(d.stages[j], c)
    ensures r.allCompleted <==> AllStagesCompleted(r.stages)
    ensures r.id == d.id && r.name == d.name && r.icon == d.icon && r.completionBonus == d.completionBonus
  {
    var stages := seq(|d.stages|, j requires 0 <= j < |d.stages| => UpdateStage(d.stages[j], c));
    d.(stages := stages, allCompleted := AllStagesCompleted(stages))
  }

  /** The pure `map` of `updateDungeonProgress` once the counters are known. */
  function UpdateDungeons(dungeons: seq<Dungeon>, c: Counters): (r: seq<Dungeon>)
    ensures |r| == |dungeons|
    ensures forall i :: 0 <= i < |dungeons| ==> r[i] == UpdateDungeon(dungeons[i], c)
  {
    seq(|dungeons|, i requires 0 <= i < |dungeons| => UpdateDungeon(dungeons[i], c))
  }

  /** `updateDungeonProgress`: the counters over all logs, then every stage
      of every dungeon re-read from them. */
  method UpdateDungeonProgress(dungeons: seq<Dungeon>, allLogs: seq<DailyLog>) returns (r: seq<Dungeon>)
    ensures r == UpdateDungeons(dungeons, Tally(allLogs))
  {
    var c := TallyLogs(allLogs);
    r := UpdateDungeons(dungeons, c);
  }

  /** Updating twice with the same logs is updating once: nothing a stage
      had before matters except its requirement and target. */
  lemma UpdateIdempotent(dungeons: seq<Dungeon>, c: Counters)
    ensures UpdateDungeons(UpdateDungeons(dungeons, c), c) == UpdateDungeons(dungeons, c)
  {
    var once := UpdateDungeons(dungeons, c);
    forall i | 0 <= i < |dungeons|
      ensures UpdateDungeon(once[i], c) == once[i]
    {
      var d := once[i];
      assert UpdateDungeon(d, c).stages == d.stages;
    }
  }

  /** The update keeps every dungeon and stage in place: ids, names, order,
      requirements, targets and rewards are untouched. */
  lemma UpdateKeepsShape(dungeons: seq<Dungeon>, c: Counters, i: int, j: int)
    requires 0 <= i < |dungeons| && 0 <= j < |dungeons[i].stages|
    ensures var s := UpdateDungeons(dungeons, c)[i].stages[j];
            var t := dungeons[i].stages[j];
            s.id == t.id && s.name == t.name && s.requirement == t.requirement &&
            s.target == t.target && s.reward == t.reward
  {
  }

  /** With a common counter set, a later stage of the same requirement and a
      higher target is never completed before an earlier one. */
  lemma HigherTargetCompletesLater(s: DungeonStage, t: DungeonStage, c: Counters)
    requires s.requirement == t.requirement && s.target <= t.target
    ensures UpdateStage(t, c).completed ==> UpdateStage(s, c).completed
  {
  }

  // ==================== Rewards ====================

  /** The line of stage `j` of a dungeon, and of its completion bonus. */
  function StageItem(curr: Dungeon, j: nat): BreakdownItem
    requires j < |curr.stages|
  {
    Item(DungeonStageLine(curr.name, curr.stages[j].name),
         curr.stages[j].reward.gold, curr.stages[j].reward.xp, curr.stages[j].reward.stars)
  }

  function ClearItem(curr: Dungeon): BreakdownItem
  {
    Item(DungeonClearLine(curr.name), curr.completionBonus.gold, curr.completionBonus.xp, curr.completionBonus.stars)
  }

  /** A stage pays when it is completed now and was not before. */
  predicate NewlyCompleted(prev: Dungeon, curr: Dungeon, j: nat)
    requires j < |curr.stages| <= |prev.stages|
  {
    curr.stages[j].completed && !prev.stages[j].completed
  }

  /** The lines paid by stages 0..m-1 of one dungeon, in stage order. */
  function StageLines(prev: Dungeon, curr: Dungeon, m: nat): seq<BreakdownItem>
    requires m <= |curr.stages| <= |prev.stages|
  {
    if m == 0 then []
    else StageLines(prev, curr, m - 1) + IfItem(NewlyCompleted(prev, curr, m - 1), StageItem(curr, m - 1))
  }

  /** The completion-bonus line of one dungeon, when it was cleared just now. */
  function ClearLines(prev: Dungeon, curr: Dungeon): seq<BreakdownItem>
  {
    IfItem(curr.allCompleted && !prev.allCompleted, ClearItem(curr))
  }

  /** What the previous and updated dungeon lists can be compared on: the
      source reads `previousDungeons[i].stages[j]` for every updated stage. */
  predicate Comparable(prev: seq<Dungeon>, curr: seq<Dungeon>)
  {
    |curr| <= |prev| && forall i :: 0 <= i < |curr| ==> |curr[i].stages| <= |prev[i].stages|
  }

  /** The lines of dungeons 0..n-1, each dungeon's stage lines followed by its
      completion bonus. */
  function DungeonLines(prev: seq<Dungeon>, curr: seq<Dungeon>, n: nat): seq<BreakdownItem>
    requires Comparable(prev, curr) && n <= |curr|
  {
    if n == 0 then []
    else DungeonLines(prev, curr, n - 1)
           + StageLines(prev[n - 1], curr[n - 1], |curr[n - 1].stages|)
           + ClearLines(prev[n - 1], curr[n - 1])
  }

  /** The inner loop of `calcDungeonRewards`: pays every stage of one dungeon
      that is completed now and was not before, in stage order. */
  method PayStages(prev: Dungeon, curr: Dungeon, acc: Reward) returns (r: Reward)
    requires |curr.stages| <= |prev.stages| && acc == OfLines(acc.breakdown)
    ensures r == OfLines(acc.breakdown + StageLines(prev, curr, |curr.stages|))
  {
    var gold, xp, stars, breakdown := acc.gold, acc.xp, acc.stars, acc.breakdown;
    assert acc.breakdown + StageLines(prev, curr, 0) == acc.breakdown;
    for j := 0 to |curr.stages|
      invariant Reward(gold, xp, stars, breakdown) == OfLines(acc.breakdown + StageLines(prev, curr, j))
    {
      if curr.stages[j].completed && !prev.stages[j].completed {
        var line := Line(StageItem(curr, j));
        OfLinesAddLine(breakdown, StageItem(curr, j));
        assert acc.breakdown + StageLines(prev, curr, j + 1) == breakdown + [StageItem(curr, j)];
        var next := Reward(gold, xp, stars, breakdown).Append(line);
        gold, xp, stars, breakdown := next.gold, next.xp, next.stars, next.breakdown;
      } else {
        assert acc.breakdown + StageLines(prev, curr, j + 1) == breakdown;
      }
    }
    r := Reward(gold, xp, stars, breakdown);
  }

  /** One step of the outer loop: after a dungeon's stage lines, its
      completion bonus (when due) completes that dungeon's lines. */
  lemma ClearStep(prev: seq<Dungeon>, curr: seq<Dungeon>, i: nat, r: Reward)
    requires Comparable(prev, curr) && i < |curr|
    requires r == OfLines(DungeonLines(prev, curr, i) + StageLines(prev[i], curr[i], |curr[i].stages|))
    ensures (if curr[i].allCompleted && !prev[i].allCompleted then r.Append(Line(ClearItem(curr[i]))) else r)
            == OfLines(DungeonLines(prev, curr, i + 1))
  {
    var paid := DungeonLines(prev, curr, i) + StageLines(prev[i], curr[i], |curr[i].stages|);
    if curr[i].allCompleted && !prev[i].allCompleted {
      OfLinesAddLine(paid, ClearItem(curr[i]));
    } else {
      assert paid + ClearLines(prev[i], curr[i]) == paid;
    }
  }

  /** `calcDungeonRewards`: the totals are the sums of the lines, and the
      lines are those of `DungeonLines`. */
  method CalcDungeonRewards(previousDungeons: seq<Dungeon>, updatedDungeons: seq<Dungeon>) returns (r: Reward)
    requires Comparable(previousDungeons, updatedDungeons)
    ensures r == OfLines(DungeonLines(previousDungeons, updatedDungeons, |updatedDungeons|))
  {
    r := NO_REWARD;
    for i := 0 to |updatedDungeons|
      invariant r == OfLines(DungeonLines(previousDungeons, updatedDungeons, i))
    {
      var prev := previousDungeons[i];
      var curr := updatedDungeons[i];
      r := PayStages(prev, curr, r);
      ClearStep(previousDungeons, updatedDungeons, i, r);
      if curr.allCompleted && !prev.allCompleted {
        r := r.Append(Line(ClearItem(curr)));
      }
    }
  }

  /** Nothing in one dungeon turned completed since the previous state. */
  predicate DungeonNothingNew(prev: Dungeon, curr: Dungeon)
    requires |curr.stages| <= |prev.stages|
  {
    !(curr.allCompleted && !prev.allCompleted) &&
    forall j :: 0 <= j < |curr.stages| ==> !NewlyCompleted(prev, curr, j)
  }

  predicate NothingNew(prev: seq<Dungeon>, curr: seq<Dungeon>)
    requires Comparable(prev, curr)
  {
    forall i :: 0 <= i < |curr| ==> DungeonNothingNew(prev[i], curr[i])
  }

  lemma {:induction false} StagesNothingNew(prev: Dungeon, curr: Dungeon, m: nat)
    requires m <= |curr.stages| <= |prev.stages|
    requires forall j :: 0 <= j < m ==> !NewlyCompleted(prev, curr, j)
    ensures StageLines(prev, curr, m) == []
  {
    if m > 0 {
      StagesNothingNew(prev, curr, m - 1);
      assert !NewlyCompleted(prev, curr, m - 1);
    }
  }

  /** Nothing newly completed, nothing paid. */
  lemma {:induction false} NothingNewPaysNothing(prev: seq<Dungeon>, curr: seq<Dungeon>, n: nat)
    requires Comparable(prev, curr) && n <= |curr| && NothingNew(prev, curr)
    ensures DungeonLines(prev, curr, n) == []
    ensures OfLines(DungeonLines(prev, curr, n)) == NO_REWARD
  {
    if n > 0 {
      NothingNewPaysNothing(prev, curr, n - 1);
      assert DungeonNothingNew(prev[n - 1], curr[n - 1]);
      StagesNothingNew(prev[n - 1], curr[n - 1], |curr[n - 1].stages|);
    }
  }

  /** Comparing a dungeon list with itself pays nothing. */
  lemma SameDungeonsPayNothing(d: seq<Dungeon>)
    ensures Comparable(d, d)
    ensures OfLines(DungeonLines(d, d, |d|)) == NO_REWARD
  {
    NothingNewPaysNothing(d, d, |d|);
  }

  /** A newly completed stage pays its reward: the dungeon's stage lines
      include that stage's line. */
  lemma {:induction false} NewStagePays(prev: Dungeon, curr: Dungeon, m: nat, j: int)
    requires m <= |curr.stages| <= |prev.stages| && 0 <= j < m
    requires curr.stages[j].completed && !prev.stages[j].completed
    ensures StageItem(curr, j) in StageLines(prev, curr, m)
  {
    if j < m - 1 {
      NewStagePays(prev, curr, m - 1, j);
    }
  }

  /** Every stage line belongs to a stage that is completed now and was not before. */
  lemma {:induction false} StageLinesAreNew(prev: Dungeon, curr: Dungeon, m: nat, k: int)
    requires m <= |curr.stages| <= |prev.stages| && 0 <= k < |StageLines(prev, curr, m)|
    ensures exists j :: 0 <= j < m && NewlyCompleted(prev, curr, j) && StageLines(prev, curr, m)[k] == StageItem(curr, j)
  {
    var rest := StageLines(prev, curr, m - 1);
    if k < |rest| {
      StageLinesAreNew(prev, curr, m - 1, k);
    } else {
      assert NewlyCompleted(prev, curr, m - 1) && StageLines(prev, curr, m)[k] == StageItem(curr, m - 1);
    }
  }

  // ==================== All dungeons cleared ====================

  /** `checkAllDungeonsCleared`: the dungeons unchanged, and the grand bonus
      exactly when every dungeon is completed (so also for no dungeons). */
  function CheckAllDungeonsCleared(dungeons: seq<Dungeon>): (r: DungeonProgress)
    ensures r.dungeons == dungeons
    ensures r.allDungeonsCleared <==> forall i :: 0 <= i < |dungeons| ==> dungeons[i].allCompleted
    ensures r.totalCompletionBonus == if r.allDungeonsCleared then ALL_DUNGEONS_CLEARED_BONUS else NO_CURRENCY
  {
    var allCleared := forall i :: 0 <= i < |dungeons| ==> dungeons[i].allCompleted;
    DungeonProgress(dungeons, if allCleared then ALL_DUNGEONS_CLEARED_BONUS else NO_CURRENCY, allCleared)
  }

  /** A fresh set of default dungeons is not cleared, while an empty list of
      dungeons counts as cleared (`every` over no dungeons is true). */
  lemma FreshDungeonsNotCleared()
    ensures !CheckAllDungeonsCleared(CreateDefaultDungeons()).allDungeonsCleared
    ensures CheckAllDungeonsCleared([]).allDungeonsCleared
  {
    assert !CreateDefaultDungeons()[0].allCompleted;
  }
}
