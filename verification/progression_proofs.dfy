/**
  Properties of the chamber progression across calls: the invariant every
  reachable controller state keeps, runs of progression calls, and the
  behaviour of level-pool exclusion over several refreshes.
 */
module ProgressionProofs {
  import opened Wrappers
  import opened Sequences
  import opened Streaming
  import opened Progression

  /** Checkpoints strictly below `index`: the intermissions already left behind. */
  function CheckpointsPassed(index: int): (n: nat)
    ensures n <= 3
    ensures index <= 25 ==> n == 0
    ensures index > 75 ==> n == 3
  {
    (if index > 25 then 1 else 0) + (if index > 50 then 1 else 0) + (if index > 75 then 1 else 0)
  }

  /**
    The states reachable from startup between progression calls: the
    index within 0..99, the difficulty equal to the number of checkpoints
    reached, the intermission flag only at a checkpoint, the ending flag
    only at the final index, the latch open and at most two resident levels.
   */
  predicate Consistent(s: State) {
    && 0 <= s.chamberIndex <= FinalIndex
    && s.difficulty == CheckpointsPassed(s.chamberIndex) + (if s.intermission then 1 else 0)
    && (s.intermission ==> IsCheckpoint(s.chamberIndex))
    && (s.ending ==> s.chamberIndex == FinalIndex)
    && s.allowProgression
    && |s.loadedLevels| <= MaxResident
  }

  /** A table that is unbound or holds a row for every tier. */
  predicate TableComplete(table: DataTable) {
    table.NoTable? || forall i :: 0 <= i < |TierRows| ==> TierRows[i] in table.rows
  }

  /** Startup sets tier 0, which is what makes the default-initialised controller consistent. */
  lemma BeginPlayStartsConsistent(s: State)
    requires s.chamberIndex == 0 && !s.intermission && !s.ending
    requires s.allowProgression && |s.loadedLevels| <= MaxResident
    ensures Consistent(BeginPlay(s))
    ensures s.difficulty != 0 ==> !Consistent(s)
  {
  }

  /** A consistent state only ever reads the four tier rows, never the fallback row. */
  lemma ConsistentTier(s: State)
    requires Consistent(s)
    ensures 0 <= s.difficulty < |TierRows|
    ensures RowName(s.difficulty) != TestRow
    ensures IsCheckpoint(s.chamberIndex) && !s.intermission ==> s.difficulty + 1 < |TierRows|
  {
    RowNameInjective(s.difficulty, s.difficulty);
  }

  /** One progression call from a consistent state is defined and keeps the state consistent. */
  lemma ProgressionKeepsConsistent(s: State, cfg: Config, draw: Draw)
    requires Consistent(s) && TableComplete(cfg.table)
    ensures RowsAvailable(s, cfg.table)
    ensures Consistent(ChamberProgression(s, cfg, draw).state)
    ensures s.difficulty <= ChamberProgression(s, cfg, draw).state.difficulty
  {
    ConsistentTier(s);
    assert RowsAvailable(s, cfg.table) by {
      if cfg.table.Rows? {
        assert TierRows[s.difficulty] in cfg.table.rows;
        if IsCheckpoint(s.chamberIndex) && !s.intermission {
          assert TierRows[s.difficulty + 1] in cfg.table.rows;
        }
      }
    }
  }

  /** The controller after a run of progression calls, one draw per call. */
  function Run(s: State, cfg: Config, draws: seq<Draw>): (r: State)
    requires Consistent(s) && TableComplete(cfg.table)
    ensures Consistent(r)
    ensures s.chamberIndex <= r.chamberIndex
    ensures s.difficulty <= r.difficulty
    decreases |draws|
  {
    if draws == [] then s
    else
      ProgressionKeepsConsistent(s, cfg, draws[0]);
      Run(ChamberProgression(s, cfg, draws[0]).state, cfg, draws[1..])
  }

  /**
    Over any run from a consistent state the index stays at most 99, at
    most two levels stay resident, the latch is open after every call and
    the difficulty never leaves the four tiers nor drops (the intermission
    fallback that resets it is never reached).
   */
  lemma {:induction false} RunBounds(s: State, cfg: Config, draws: seq<Draw>)
    requires Consistent(s) && TableComplete(cfg.table)
    ensures Run(s, cfg, draws).chamberIndex <= FinalIndex
    ensures |Run(s, cfg, draws).loadedLevels| <= MaxResident
    ensures Run(s, cfg, draws).allowProgression
    ensures s.difficulty <= Run(s, cfg, draws).difficulty < |TierRows|
  {
    ConsistentTier(Run(s, cfg, draws));
  }

  /**
    The chamber before a checkpoint is left like any other: the call
    reaches the checkpoint index as an ordinary chamber, outside any
    intermission, so the intermission is entered only by the next call.
   */
  lemma CheckpointReachedAsChamber(s: State, cfg: Config, draw: Draw)
    requires Consistent(s) && TableComplete(cfg.table)
    requires IsCheckpoint(s.chamberIndex + 1)
    ensures RowsAvailable(s, cfg.table)
    ensures var t := ChamberProgression(s, cfg, draw).state;
      && t.chamberIndex == s.chamberIndex + 1 && !t.intermission && t.difficulty == s.difficulty
      && Consistent(t)
  {
    ProgressionKeepsConsistent(s, cfg, draw);
  }

  /**
    A checkpoint takes two calls: the first enters the intermission one
    tier up without moving the index, the second returns to the chambers
    at the next index and keeps the new tier.
   */
  lemma CheckpointTakesTwoCalls(s: State, cfg: Config, d1: Draw, d2: Draw, s1: State, s2: State)
    requires Consistent(s) && TableComplete(cfg.table)
    requires IsCheckpoint(s.chamberIndex) && !s.intermission
    requires RowsAvailable(s, cfg.table) && s1 == ChamberProgression(s, cfg, d1).state
    requires RowsAvailable(s1, cfg.table) && s2 == ChamberProgression(s1, cfg, d2).state
    ensures s1.chamberIndex == s.chamberIndex && s1.intermission && s1.difficulty == s.difficulty + 1
    ensures s2.chamberIndex == s.chamberIndex + 1 && !s2.intermission && !s2.ending
    ensures s2.difficulty == s.difficulty + 1 && Consistent(s2)
  {
    ProgressionKeepsConsistent(s, cfg, d1);
    ProgressionKeepsConsistent(s1, cfg, d2);
  }

  /**
    With a bound table every level in the pool comes from the row of the
    current tier, counting duplicates: the pool is that row with copies
    taken away, never a level of another tier.
   */
  predicate PoolFromTier(s: State, table: DataTable) {
    table.Rows? ==>
      && RowName(s.difficulty) in table.rows
      && multiset(s.levelPool) <= multiset(table.rows[RowName(s.difficulty)])
  }

  /** Pool membership as a count, so sub-multiset facts carry over to `in`. */
  lemma InPoolCounts(pool: seq<LevelRef>, row: seq<LevelRef>, level: LevelRef)
    requires multiset(pool) <= multiset(row)
    ensures level in pool ==> level in row
  {
    if level in pool {
      assert multiset(pool)[level] > 0;
    }
  }

  /** Loading a level only takes a copy out of the pool, so the pool stays inside the tier's row. */
  lemma LoadLevelFromTier(s: State, table: DataTable, level: LevelRef, outcome: StreamOutcome)
    requires PoolFromTier(s, table)
    ensures PoolFromTier(LoadLevel(s, level, outcome).state, table)
  {
    RemovedOnceCount(s.levelPool, level, LoadLevel(s, level, outcome).state.levelPool);
  }

  /** A chamber load draws from the pool or from a fresh copy of the tier's row less the current level. */
  lemma LoadChamberFromTier(s: State, table: DataTable, draw: Draw)
    requires table.Rows? && PoolFromTier(s, table)
    ensures PoolFromTier(LoadChamber(s, table, draw).state, table)
  {
    var pool := Candidates(s, table);
    if |s.levelPool| == 0 {
      RemovedOnceCount(table.rows[RowName(s.difficulty)], s.currentLevel, pool);
    }
    if 0 <= draw.pick < |pool| {
      RemovedOnceCount(pool, LoadChamber(s, table, draw).state.currentLevel, LoadChamber(s, table, draw).state.levelPool);
    }
  }

  /** An intermission refills the pool from the next tier's row, then takes the intermission level out. */
  lemma LoadIntermissionFromTier(s: State, cfg: Config, outcome: StreamOutcome)
    requires cfg.table.Rows? && HasRow(cfg.table, IntermissionDifficulty(s))
    ensures PoolFromTier(LoadIntermission(s, cfg, outcome).state, cfg.table)
  {
    var t := LoadIntermission(s, cfg, outcome).state;
    var row := cfg.table.rows[RowName(t.difficulty)];
    var refreshed :| RemovedOnce(row, s.currentLevel, refreshed) && RemovedOnce(refreshed, t.currentLevel, t.levelPool);
    RemovedOnceCount(row, s.currentLevel, refreshed);
    RemovedOnceCount(refreshed, t.currentLevel, t.levelPool);
  }

  /**
    Every progression call keeps the pool inside the current tier's row:
    a chamber load takes from the pool or from a fresh copy of the row, an
    intermission refills the pool from the next tier's row before loading,
    and the final chamber only takes a copy away.
   */
  lemma TierPoolPreserved(s: State, cfg: Config, draw: Draw)
    requires Consistent(s) && TableComplete(cfg.table) && PoolFromTier(s, cfg.table)
    ensures RowsAvailable(s, cfg.table)
    ensures PoolFromTier(ChamberProgression(s, cfg, draw).state, cfg.table)
  {
    ProgressionKeepsConsistent(s, cfg, draw);
    if cfg.table.Rows? {
      var closed := s.(allowProgression := false);
      if IsCheckpoint(s.chamberIndex) && !s.intermission {
        LoadIntermissionFromTier(closed, cfg, draw.outcome);
      } else if s.chamberIndex != FinalIndex {
        LoadChamberFromTier(closed.(chamberIndex := s.chamberIndex + 1), cfg.table, draw);
      } else {
        LoadLevelFromTier(closed.(ending := true), cfg.table, FinalChamber, draw.outcome);
      }
    }
  }

  /**
    From any consistent state whose pool lies inside its tier's row, every
    run keeps the pool inside the row of the tier the run has reached.
   */
  lemma {:induction false} RunFromTier(s: State, cfg: Config, draws: seq<Draw>)
    requires Consistent(s) && TableComplete(cfg.table) && PoolFromTier(s, cfg.table)
    ensures PoolFromTier(Run(s, cfg, draws), cfg.table)
    decreases |draws|
  {
    if draws != [] {
      TierPoolPreserved(s, cfg, draws[0]);
      RunFromTier(ChamberProgression(s, cfg, draws[0]).state, cfg, draws[1..]);
    }
  }

  /**
    With a bound table every chamber a progression call requests lies in
    the row of the tier it is played at; only intermission levels and the
    final chamber come from outside the rows.
   */
  lemma ChamberFromTier(s: State, cfg: Config, draw: Draw)
    requires Consistent(s) && TableComplete(cfg.table) && cfg.table.Rows?
    requires PoolFromTier(s, cfg.table)
    requires !(IsCheckpoint(s.chamberIndex) && !s.intermission) && s.chamberIndex != FinalIndex
    ensures RowsAvailable(s, cfg.table)
    ensures var step := ChamberProgression(s, cfg, draw);
      step.requested.Some? ==> step.requested.value in cfg.table.rows[RowName(step.state.difficulty)]
  {
    ProgressionKeepsConsistent(s, cfg, draw);
    var next := s.(allowProgression := false, chamberIndex := s.chamberIndex + 1);
    var pool := Candidates(next, cfg.table);
    var row := cfg.table.rows[RowName(s.difficulty)];
    if |next.levelPool| == 0 {
      RemovedOnceCount(row, s.currentLevel, pool);
    }
    if 0 <= draw.pick < |pool| {
      InPoolCounts(pool, row, pool[draw.pick]);
    }
  }

  /**
    Refreshing excludes the current level exactly once: it keeps every
    further copy in the row, and every other level keeps its count.
   */
  lemma ExclusionIsSingle(s: State, table: DataTable, level: LevelRef)
    requires table.Rows? && HasRow(table, s.difficulty)
    ensures var row := table.rows[RowName(s.difficulty)];
      var pool := RefreshLevelPool(s, table).levelPool;
      && (level == s.currentLevel && level in row ==> multiset(pool)[level] == multiset(row)[level] - 1)
      && (level != s.currentLevel ==> multiset(pool)[level] == multiset(row)[level])
      && (level == s.currentLevel && multiset(row)[level] >= 2 ==> level in pool)
  {
  }

  /**
    The exclusion is not permanent: the refreshed pool depends only on the
    row and the current level, not on the pool before, so a level excluded
    while current is back once another level is current.
   */
  lemma ExclusionNotPermanent(s: State, t: State, table: DataTable)
    requires table.Rows? && s.difficulty == t.difficulty && HasRow(table, s.difficulty)
    ensures s.currentLevel == t.currentLevel ==>
      RefreshLevelPool(s, table).levelPool == RefreshLevelPool(t, table).levelPool
    ensures s.currentLevel != t.currentLevel && s.currentLevel in table.rows[RowName(s.difficulty)] ==>
      s.currentLevel in RefreshLevelPool(t, table).levelPool
  {
    var row := table.rows[RowName(s.difficulty)];
    if s.currentLevel != t.currentLevel && s.currentLevel in row {
      assert multiset(row)[s.currentLevel] > 0;
      assert multiset(RefreshLevelPool(t, table).levelPool)[s.currentLevel] > 0;
    }
  }

  /**
    Loading a level removes a single copy of it: with a second copy in the
    pool the loaded level is still a candidate afterwards.
   */
  lemma LoadKeepsDuplicate(s: State, level: LevelRef, outcome: StreamOutcome)
    requires multiset(s.levelPool)[level] >= 2
    ensures level in LoadLevel(s, level, outcome).state.levelPool
  {
    var pool := LoadLevel(s, level, outcome).state.levelPool;
    assert pool == RemoveSingle(s.levelPool, level);
    assert multiset(pool)[level] > 0;
  }

  /**
    Without a bound table an ordinary chamber reached with an empty pool
    still advances the index but loads nothing; the latch is released.
   */
  lemma UnboundTableAdvancesWithoutLoad(s: State, cfg: Config, draw: Draw)
    requires cfg.table.NoTable? && s.allowProgression && |s.levelPool| == 0
    requires !IsCheckpoint(s.chamberIndex) && s.chamberIndex != FinalIndex
    ensures var step := ChamberProgression(s, cfg, draw);
      && step.requested == None && step.unloaded == None
      && step.state.chamberIndex == s.chamberIndex + 1
      && step.state.currentLevel == s.currentLevel
      && step.state.loadedLevels == s.loadedLevels
      && step.state.allowProgression
  {
  }
}
