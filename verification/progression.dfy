/**
  The chamber progression controller of the sprint game: a single
  sequential state machine that walks the player through numbered
  chambers, inserts an intermission level at the checkpoints 25, 50 and
  75 (raising the difficulty tier each time), and ends in a fixed final
  chamber at index 99.

  Everything the controller consults outside itself is a parameter: the
  level table (`DataTable`), the three intermission levels (`Config`), the
  random index and the streaming result of a call (`Draw`).
 */
module Progression {
  import opened Wrappers
  import opened Sequences
  import opened Streaming

  /** A reference to a level asset; `NoLevel` is the unset reference. */
  datatype LevelRef = NoLevel | Asset(path: string)

  /** The level table: unbound, or bound with one list of levels per row name. */
  datatype DataTable = NoTable | Rows(rows: map<string, seq<LevelRef>>)

  /** The controller's fixed collaborators. */
  datatype Config = Config(
    table: DataTable,
    intermissionLevel1: LevelRef,
    intermissionLevel2: LevelRef,
    intermissionLevel3: LevelRef)

  /** The nondeterministic inputs of one progression call. */
  datatype Draw = Draw(pick: int, outcome: StreamOutcome)

  datatype State = State(
    chamberIndex: int,
    difficulty: int,
    intermission: bool,
    ending: bool,
    allowProgression: bool,
    levelPool: seq<LevelRef>,
    currentLevel: LevelRef,
    loadedLevels: seq<Handle>)

  /** A new state, the level whose streaming was requested, and the handle asked to unload. */
  datatype Step = Step(state: State, requested: Option<LevelRef>, unloaded: Option<Handle>)

  const FinalIndex: int := 99
  const FinalChamber: LevelRef := Asset("/Game/Levels/Chamber_Pool/lvl_FinalChamber.lvl_FinalChamber")

  /** Row names of the level table, by difficulty tier 0 to 3, and the fallback row. */
  const TierRows: seq<string> := ["01_Easy", "02_Medium", "03_Hard", "04_Expert"]
  const TestRow: string := "00_Test"

  predicate IsCheckpoint(index: int) {
    index == 25 || index == 50 || index == 75
  }

  /** The table row consulted for a difficulty. */
  function RowName(difficulty: int): (name: string)
    ensures 0 <= difficulty < |TierRows| ==> name == TierRows[difficulty]
    ensures !(0 <= difficulty < |TierRows|) ==> name == TestRow
  {
    match difficulty
    case 0 => "01_Easy"
    case 1 => "02_Medium"
    case 2 => "03_Hard"
    case 3 => "04_Expert"
    case _ => "00_Test"
  }

  /** Distinct tiers read distinct rows, and no tier reads the fallback row. */
  lemma RowNameInjective(d1: int, d2: int)
    requires 0 <= d1 < |TierRows| && 0 <= d2 < |TierRows|
    ensures RowName(d1) != TestRow
    ensures RowName(d1) == RowName(d2) <==> d1 == d2
  {
    assert TierRows[d1][1] != TestRow[1];
    if d1 != d2 {
      assert TierRows[d1][1] != TierRows[d2][1];
    }
  }

  /** Whether refreshing at this difficulty can read its row (an unbound table reads none). */
  predicate HasRow(table: DataTable, difficulty: int) {
    table.NoTable? || RowName(difficulty) in table.rows
  }

  /** Startup: the difficulty starts at tier 0. */
  function BeginPlay(s: State): (r: State)
    ensures r.difficulty == 0 && RowName(r.difficulty) == TierRows[0]
    ensures r.(difficulty := s.difficulty) == s
  {
    s.(difficulty := 0)
  }

  /**
    Reloads the pool from the row of the current difficulty and drops one
    occurrence of the current level. Without a bound table the pool is
    kept and the progression latch is released.
   */
  function RefreshLevelPool(s: State, table: DataTable): (r: State)
    requires HasRow(table, s.difficulty)
    ensures table.NoTable? ==> r == s.(allowProgression := true)
    ensures table.Rows? ==> r.(levelPool := s.levelPool) == s
    ensures table.Rows? ==> RemovedOnce(table.rows[RowName(s.difficulty)], s.currentLevel, r.levelPool)
  {
    match table
    case NoTable => s.(allowProgression := true)
    case Rows(rows) =>
      var row := rows[RowName(s.difficulty)];
      RemoveSingleSplices(row, s.currentLevel);
      s.(levelPool := if s.currentLevel in row then RemoveSingle(row, s.currentLevel) else row)
  }

  /**
    Makes `level` current, drops one occurrence of it from the pool,
    requests its streaming, admits the new handle on success (evicting the
    oldest beyond two) and releases the progression latch.
   */
  function LoadLevel(s: State, level: LevelRef, outcome: StreamOutcome): (step: Step)
    ensures step.requested == Some(level) && step.state.currentLevel == level
    ensures RemovedOnce(s.levelPool, level, step.state.levelPool)
    ensures step.state.allowProgression
    ensures step.unloaded.ToSeq() + step.state.loadedLevels == s.loadedLevels + Arrivals(outcome)
    ensures step.unloaded.Some? <==> |s.loadedLevels + Arrivals(outcome)| > MaxResident
    ensures |s.loadedLevels| <= MaxResident ==> |step.state.loadedLevels| <= MaxResident
    ensures outcome.StreamFailed? && |s.loadedLevels| <= MaxResident ==>
      step.state.loadedLevels == s.loadedLevels && step.unloaded == None
    ensures step.state.chamberIndex == s.chamberIndex && step.state.difficulty == s.difficulty
    ensures step.state.intermission == s.intermission && step.state.ending == s.ending
  {
    RemoveSingleSplices(s.levelPool, level);
    var pool := if level in s.levelPool then RemoveSingle(s.levelPool, level) else s.levelPool;
    var admitted := Admit(s.loadedLevels, outcome);
    var next := s.(currentLevel := level, levelPool := pool,
                   loadedLevels := admitted.resident, allowProgression := true);
    Step(next, Some(level), admitted.evicted)
  }

  /** The pool a chamber is picked from: the current pool, or a refreshed one when it is empty. */
  function Candidates(s: State, table: DataTable): (pool: seq<LevelRef>)
    requires |s.levelPool| == 0 ==> HasRow(table, s.difficulty)
    ensures |s.levelPool| > 0 ==> pool == s.levelPool
    ensures |s.levelPool| == 0 && table.NoTable? ==> pool == []
    ensures |s.levelPool| == 0 && table.Rows? ==>
      RemovedOnce(table.rows[RowName(s.difficulty)], s.currentLevel, pool)
  {
    if |s.levelPool| == 0 then RefreshLevelPool(s, table).levelPool else s.levelPool
  }

  /** The state a chamber is picked in: flags cleared, pool refreshed when it was empty. */
  function Ready(s: State, table: DataTable): (r: State)
    requires |s.levelPool| == 0 ==> HasRow(table, s.difficulty)
    ensures r.levelPool == Candidates(s, table)
    ensures !r.intermission && !r.ending
    ensures r.chamberIndex == s.chamberIndex && r.difficulty == s.difficulty
    ensures r.currentLevel == s.currentLevel && r.loadedLevels == s.loadedLevels
  {
    var left := s.(ending := false, intermission := false);
    if |left.levelPool| == 0 then RefreshLevelPool(left, table) else left
  }

  /**
    Leaves any intermission or ending, refreshes an empty pool, and loads
    the pool entry at the drawn index; an index outside the pool loads
    nothing and only releases the latch.
   */
  function LoadChamber(s: State, table: DataTable, draw: Draw): (step: Step)
    requires |s.levelPool| == 0 ==> HasRow(table, s.difficulty)
    ensures !step.state.intermission && !step.state.ending
    ensures step.state.allowProgression
    ensures step.state.chamberIndex == s.chamberIndex && step.state.difficulty == s.difficulty
    ensures 0 <= draw.pick < |Candidates(s, table)| ==>
      && step.requested == Some(Candidates(s, table)[draw.pick])
      && step.state.currentLevel == Candidates(s, table)[draw.pick]
      && RemovedOnce(Candidates(s, table), step.state.currentLevel, step.state.levelPool)
      && step.unloaded.ToSeq() + step.state.loadedLevels == s.loadedLevels + Arrivals(draw.outcome)
      && (step.unloaded.Some? <==> |s.loadedLevels + Arrivals(draw.outcome)| > MaxResident)
    ensures !(0 <= draw.pick < |Candidates(s, table)|) ==>
      && step.requested == None && step.unloaded == None
      && step.state.currentLevel == s.currentLevel
      && step.state.loadedLevels == s.loadedLevels
      && step.state.levelPool == Candidates(s, table)
    ensures |s.loadedLevels| <= MaxResident ==> |step.state.loadedLevels| <= MaxResident
  {
    var ready := Ready(s, table);
    if 0 <= draw.pick < |ready.levelPool| then
      LoadLevel(ready, ready.levelPool[draw.pick], draw.outcome)
    else
      Step(ready.(allowProgression := true), None, None)
  }

  /** The intermission level that belongs to a checkpoint, falling back to the first. */
  function IntermissionLevel(index: int, cfg: Config): (level: LevelRef)
    ensures index == 50 ==> level == cfg.intermissionLevel2
    ensures index == 75 ==> level == cfg.intermissionLevel3
    ensures index != 50 && index != 75 ==> level == cfg.intermissionLevel1
  {
    match index
    case 25 => cfg.intermissionLevel1
    case 50 => cfg.intermissionLevel2
    case 75 => cfg.intermissionLevel3
    case _ => cfg.intermissionLevel1
  }

  /** The difficulty an intermission moves to: one tier up at a checkpoint, else back to 0. */
  function IntermissionDifficulty(s: State): int {
    if IsCheckpoint(s.chamberIndex) then s.difficulty + 1 else 0
  }

  /**
    Enters the intermission of the current checkpoint: raises the
    difficulty, refreshes the pool for it and loads the intermission level.
    Off a checkpoint it falls back to the first intermission level and
    resets the difficulty to 0.
   */
  function LoadIntermission(s: State, cfg: Config, outcome: StreamOutcome): (step: Step)
    requires HasRow(cfg.table, IntermissionDifficulty(s))
    ensures step.state.intermission && step.state.allowProgression
    ensures step.state.chamberIndex == s.chamberIndex && step.state.ending == s.ending
    ensures IsCheckpoint(s.chamberIndex) ==> step.state.difficulty == s.difficulty + 1
    ensures !IsCheckpoint(s.chamberIndex) ==> step.state.difficulty == 0
    ensures step.requested == Some(IntermissionLevel(s.chamberIndex, cfg))
    ensures step.state.currentLevel == IntermissionLevel(s.chamberIndex, cfg)
    // the pool is the new tier's row less one copy of the old current level, then less one copy of the intermission level
    ensures cfg.table.Rows? ==>
      exists refreshed :: && RemovedOnce(cfg.table.rows[RowName(step.state.difficulty)], s.currentLevel, refreshed)
                          && RemovedOnce(refreshed, step.state.currentLevel, step.state.levelPool)
    ensures cfg.table.NoTable? ==> RemovedOnce(s.levelPool, step.state.currentLevel, step.state.levelPool)
    // the intermission level's handle is admitted like any other, evicting the oldest above the cap
    ensures step.unloaded.ToSeq() + step.state.loadedLevels == s.loadedLevels + Arrivals(outcome)
    ensures step.unloaded.Some? <==> |s.loadedLevels + Arrivals(outcome)| > MaxResident
    ensures |s.loadedLevels| <= MaxResident ==> |step.state.loadedLevels| <= MaxResident
  {
    var level := IntermissionLevel(s.chamberIndex, cfg);
    var entered := s.(intermission := true, difficulty := IntermissionDifficulty(s));
    var refreshed := RefreshLevelPool(entered, cfg.table);
    assert cfg.table.Rows? ==>
      RemovedOnce(cfg.table.rows[RowName(entered.difficulty)], s.currentLevel, refreshed.levelPool);
    LoadLevel(refreshed, level, outcome)
  }

  /**
    The table rows one progression call may read: the next tier's row when
    it enters an intermission, the current tier's row when it loads a
    chamber from an empty pool, and none otherwise.
   */
  predicate RowsAvailable(s: State, table: DataTable) {
    s.allowProgression ==>
      if IsCheckpoint(s.chamberIndex) && !s.intermission then HasRow(table, s.difficulty + 1)
      else s.chamberIndex != FinalIndex && |s.levelPool| == 0 ==> HasRow(table, s.difficulty)
  }

  /**
    Moves to the next chamber index and loads a chamber there, as both the
    ordinary trigger and the return from an intermission do. The pick is
    made from the same candidates the state before the call offers.
   */
  function NextChamber(s: State, table: DataTable, draw: Draw): (step: Step)
    requires |s.levelPool| == 0 ==> HasRow(table, s.difficulty)
    ensures step.state.chamberIndex == s.chamberIndex + 1 && step.state.difficulty == s.difficulty
    ensures !step.state.intermission && !step.state.ending && step.state.allowProgression
    ensures step.requested.Some? <==> 0 <= draw.pick < |Candidates(s, table)|
    ensures step.requested.Some? ==>
      && step.requested == Some(Candidates(s, table)[draw.pick])
      && step.state.currentLevel == step.requested.value
      && step.unloaded.ToSeq() + step.state.loadedLevels == s.loadedLevels + Arrivals(draw.outcome)
    ensures step.requested.None? ==> step.unloaded == None && step.state.loadedLevels == s.loadedLevels
    ensures step.unloaded.Some? <==> step.requested.Some? && |s.loadedLevels + Arrivals(draw.outcome)| > MaxResident
    // the pool left: the candidates less the first copy of the loaded level, or the candidates themselves
    ensures step.requested.Some? ==> RemovedOnce(Candidates(s, table), step.state.currentLevel, step.state.levelPool)
    ensures step.requested.None? ==> step.state.levelPool == Candidates(s, table) && step.state.currentLevel == s.currentLevel
    ensures |s.loadedLevels| <= MaxResident ==> |step.state.loadedLevels| <= MaxResident
  {
    var next := s.(allowProgression := false, chamberIndex := s.chamberIndex + 1);
    assert Candidates(next, table) == Candidates(s, table);
    LoadChamber(next, table, draw)
  }

  /**
    The progression trigger. Ignored while the latch is closed; otherwise
    closes the latch and either enters the checkpoint's intermission,
    returns from it, advances to the next chamber, or loads the final
    chamber at index 99.
   */
  function ChamberProgression(s: State, cfg: Config, draw: Draw): (step: Step)
    requires RowsAvailable(s, cfg.table)
    // the re-entrancy latch
    ensures !s.allowProgression ==> step == Step(s, None, None)
    ensures s.allowProgression ==> step.state.allowProgression
    // an ordinary chamber
    ensures s.allowProgression && !IsCheckpoint(s.chamberIndex) && s.chamberIndex != FinalIndex ==>
      && step.state.chamberIndex == s.chamberIndex + 1
      && step.state.difficulty == s.difficulty
      && !step.state.intermission && !step.state.ending
    // the final chamber
    ensures s.allowProgression && s.chamberIndex == FinalIndex ==>
      && step.state.chamberIndex == FinalIndex
      && step.state.ending
      && step.requested == Some(FinalChamber) && step.state.currentLevel == FinalChamber
      && step.state.difficulty == s.difficulty && step.state.intermission == s.intermission
      && RemovedOnce(s.levelPool, FinalChamber, step.state.levelPool)
    // a checkpoint, first step: into the intermission
    ensures s.allowProgression && IsCheckpoint(s.chamberIndex) && !s.intermission ==>
      && step.state.chamberIndex == s.chamberIndex
      && step.state.intermission
      && step.state.difficulty == s.difficulty + 1
      && step.requested == Some(IntermissionLevel(s.chamberIndex, cfg))
      && step.state.currentLevel == IntermissionLevel(s.chamberIndex, cfg)
      && (cfg.table.Rows? ==>
            exists refreshed :: && RemovedOnce(cfg.table.rows[RowName(step.state.difficulty)], s.currentLevel, refreshed)
                                && RemovedOnce(refreshed, step.state.currentLevel, step.state.levelPool))
      && (cfg.table.NoTable? ==> RemovedOnce(s.levelPool, step.state.currentLevel, step.state.levelPool))
    // a chamber load, ordinary or back from an intermission: the drawn candidate, if the draw is inside the pool
    ensures s.allowProgression && !(IsCheckpoint(s.chamberIndex) && !s.intermission) && s.chamberIndex != FinalIndex ==>
      && (step.requested.Some? <==> 0 <= draw.pick < |Candidates(s, cfg.table)|)
      && (step.requested.Some? ==>
            && step.requested == Some(Candidates(s, cfg.table)[draw.pick])
            && step.state.currentLevel == step.requested.value
            && RemovedOnce(Candidates(s, cfg.table), step.state.currentLevel, step.state.levelPool))
      && (step.requested.None? ==>
            step.state.levelPool == Candidates(s, cfg.table) && step.state.currentLevel == s.currentLevel)
    // a load admits the streamed handle; no load leaves the resident handles alone
    ensures step.requested.Some? ==>
      step.unloaded.ToSeq() + step.state.loadedLevels == s.loadedLevels + Arrivals(draw.outcome)
    ensures step.requested.None? ==> step.unloaded == None && step.state.loadedLevels == s.loadedLevels
    ensures step.unloaded.Some? <==> step.requested.Some? && |s.loadedLevels + Arrivals(draw.outcome)| > MaxResident
    // a checkpoint, second step: back to the chambers
    ensures s.allowProgression && IsCheckpoint(s.chamberIndex) && s.intermission ==>
      && step.state.chamberIndex == s.chamberIndex + 1
      && step.state.difficulty == s.difficulty
      && !step.state.intermission && !step.state.ending
    ensures s.chamberIndex <= FinalIndex ==> step.state.chamberIndex <= FinalIndex
    ensures s.chamberIndex <= step.state.chamberIndex <= s.chamberIndex + 1
    ensures |s.loadedLevels| <= MaxResident ==> |step.state.loadedLevels| <= MaxResident
  {
    if !s.allowProgression then Step(s, None, None)
    else
      var closed := s.(allowProgression := false);
      if IsCheckpoint(s.chamberIndex) then
        if s.intermission then NextChamber(s, cfg.table, draw)
        else LoadIntermission(closed, cfg, draw.outcome)
      else if s.chamberIndex != FinalIndex then
        NextChamber(s, cfg.table, draw)
      else
        LoadLevel(closed.(ending := true), FinalChamber, draw.outcome)
  }
}
