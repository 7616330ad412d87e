# Chamber progression of the sprint game, in Dafny

This project models `AProgressionHandler`, the controller that walks the player
through numbered chambers of the sprint game. A progression trigger (the player
reaching a chamber exit) either advances to a randomly picked chamber of the
current difficulty tier, enters the intermission level of a checkpoint
(chambers 25, 50 and 75, each raising the tier), returns from that intermission,
or, at chamber 99, loads the final chamber. A boolean latch (`allowProgression`)
keeps a second trigger from running while a load is in flight. The controller
keeps a pool of candidate levels read from a data table row chosen by tier,
excludes the current level from it once, and keeps at most two streamed level
instances resident, evicting the oldest.

The model is functional. `Progression.State` holds the controller's fields, and
each source function becomes a pure transition. Anything the controller gets
from outside is a parameter:

- the level table is `DataTable`, either unbound or a map from row name to a list of levels;
- the three intermission levels are fields of `Config`;
- the random index and the streaming result of one call are a `Draw`;
- a streamed level instance is an opaque `Handle`.

Each transition returns a `Step`: the new state, the level whose streaming was
requested (if any) and the handle asked to unload (if any).

Files:

- `wrappers.dfy`: `Option`.
- `sequences.dfy`: the dynamic-array operations the controller relies on. `RemoveSingle` removes the first occurrence only. `Newest` keeps the most recent elements.
- `streaming.dfy`: the bounded FIFO of resident level handles (`loadedLevels`).
- `progression.dfy`: the state, the tier-to-row mapping and the five transitions.
- `progression_proofs.dfy`: the invariant of reachable states, runs of calls, and the pool-exclusion properties.

## Behaviour as coded

- From chamber 24 the trigger loads chamber 25 as an ordinary chamber. The intermission is entered by the next trigger, at index 25. The trigger after that returns to chamber 26 (`ProgressionProofs.CheckpointReachedAsChamber`, `ProgressionProofs.CheckpointTakesTwoCalls`). A reading in which the trigger at 24 already enters the intermission does not match the code; the model follows the code.
- Only one copy of the current level is removed from the pool, both on refresh and on load. A level listed twice in a row is still a candidate right after it was selected (`ProgressionProofs.ExclusionIsSingle`, `ProgressionProofs.LoadKeepsDuplicate`). A reading in which the pool never contains the current level does not match the code; the model follows the code.
- With no table bound and an empty pool, an ordinary trigger still increments `chamberIndex` but loads nothing (`ProgressionProofs.UnboundTableAdvancesWithoutLoad`).

## Model

| member | source | states |
|---|---|---|
| `Progression.ChamberProgression` | 02-SprintGame_ProgressionHandler.cpp:43-93 | With the latch closed the call changes nothing and requests nothing. Otherwise the latch is open again afterwards. An ordinary chamber advances the index by exactly one and leaves the tier unchanged. At 99 the index stays, `ending` is set, the final chamber is requested and made current, and its first copy leaves the pool. At a checkpoint outside an intermission, the call enters the intermission with the tier one higher, requests that checkpoint's intermission level, makes it current and keeps the index. With a table the pool becomes the new tier's row less the first copy of the old current level, then less the first copy of the intermission level; without one, only the intermission level's first copy leaves the old pool. At a checkpoint inside an intermission, it advances the index by one and clears both flags. In both chamber-loading cases (ordinary, and back from an intermission) a level is requested exactly when the draw falls inside the candidate pool, and then it is the drawn candidate and becomes current, and the pool left is the candidates less that level's first copy. A draw outside the candidates leaves the candidates as the pool and keeps the current level. Whenever a level is requested, the unloaded handle followed by the resident handles is the old resident handles plus the streamed one, and a handle is unloaded exactly when a level is requested and that sequence holds more than two. When nothing is requested, nothing is unloaded and the resident handles stay. An index of at most 99 stays at most 99. At most two resident levels stay at most two. |
| `Progression.NextChamber` | 02-SprintGame_ProgressionHandler.cpp:74-79 | Moving on to the next chamber (also done at lines 60-63 when an intermission ends) advances the index by exactly one, keeps the tier, clears both flags and releases the latch. A level is requested exactly when the draw falls inside the candidates of the state before the call. The requested level is that candidate and becomes current, and the pool left is the candidates less its first copy. Its streamed handle is admitted to the resident handles, and a handle is unloaded exactly when a level is requested and the old resident handles plus the new one number more than two. With no request, nothing is unloaded, the resident handles and the current level stay, and the candidates become the pool. |
| `Progression.LoadChamber` | 02-SprintGame_ProgressionHandler.cpp:96-132 | Clears the intermission and ending flags and keeps index and tier. A drawn index inside the candidate pool requests exactly that entry and makes it current, and the pool left is the candidates with that entry's first copy cut out. The streamed handle is admitted: the unloaded handle followed by the resident handles is the old resident handles plus the new one, and a handle is unloaded exactly when that sequence holds more than two. A drawn index outside the pool, such as any index into an empty pool, requests and unloads nothing, keeps the current level and the resident levels, and leaves the candidates as the pool. In every case the latch ends open. |
| `Progression.Candidates` | 02-SprintGame_ProgressionHandler.cpp:105-109 | The pick is made from the current pool when it is non-empty. From an empty pool it is made from the refreshed pool. That pool is empty without a table. Otherwise it is the tier's row with the first copy of the current level cut out. |
| `Progression.LoadIntermission` | 02-SprintGame_ProgressionHandler.cpp:135-170 | Sets the intermission flag, keeps index and ending, and releases the latch. At 25, 50 or 75 it raises the tier by one and requests the first, second or third intermission level. At any other index it falls back to the first intermission level and resets the tier to 0. The requested level becomes current. With a table, the pool is the new tier's row with the first copy of the old current level cut out, then the first copy of the intermission level cut out. Without a table, only the first copy of the intermission level leaves the old pool. The intermission level's handle is admitted like any other: the unloaded handle followed by the resident handles is the old resident handles plus the new one, and a handle is unloaded exactly when that sequence holds more than two. |
| `Progression.IntermissionLevel` | 02-SprintGame_ProgressionHandler.cpp:141-163 | Chamber 50 maps to the second intermission level, 75 to the third, and every other index to the first. |
| `Progression.RowName` | 02-SprintGame_ProgressionHandler.cpp:179-205 | Tiers 0 to 3 read rows `01_Easy`, `02_Medium`, `03_Hard` and `04_Expert`. Every other difficulty reads `00_Test`. |
| `Progression.RowNameInjective` | 02-SprintGame_ProgressionHandler.cpp:179-205 | Two tiers read the same row exactly when they are the same tier. No tier reads the fallback row. |
| `Progression.RefreshLevelPool` | 02-SprintGame_ProgressionHandler.cpp:173-224 | Without a table only the latch changes, and it is released. With a table only the pool changes. The new pool is the tier's row with its first copy of the current level cut out and everything else in order. |
| `Progression.LoadLevel` | 02-SprintGame_ProgressionHandler.cpp:227-282 | The level is requested and becomes current. Its first copy leaves the pool and the other entries keep their order. The unloaded handle, followed by the resident handles, is exactly the old resident handles plus the new one on success. A handle is unloaded exactly when that sequence holds more than two. A failed stream, with at most two resident, unloads nothing and keeps the resident handles. At most two resident handles stay at most two. The latch is released. Index, tier and flags are unchanged. |
| `Progression.BeginPlay` | 02-SprintGame_ProgressionHandler.cpp:12-15 | Startup puts the controller on tier 0, which reads row `01_Easy`, and touches nothing else. |
| `Streaming.Admit` | 02-SprintGame_ProgressionHandler.cpp:257-279 | Nothing is lost or reordered: the evicted handle, then the survivors, equals the old resident handles plus the new one. A handle is evicted exactly when that sequence holds more than two. Within the cap, the survivors are the two newest and the new handle is last. A failed load adds nothing. |
| `Streaming.ResidentAreNewest` | 02-SprintGame_ProgressionHandler.cpp:257-279 | Starting with at most two resident handles, after any run of stream outcomes the resident handles are exactly the two most recently streamed ones, oldest first. |
| `Sequences.RemoveSingle` | 02-SprintGame_ProgressionHandler.cpp:236-239 | Removes one copy of the value when it occurs, so the length drops by one, and returns the sequence unchanged when the value does not occur. The multiset loses exactly one copy of the value. |
| `Sequences.RemoveSingleSplices` | 02-SprintGame_ProgressionHandler.cpp:216-220 | The removed copy is the first occurrence, and everything before and after it is kept in order. |
| `ProgressionProofs.BeginPlayStartsConsistent` | 02-SprintGame_ProgressionHandler.cpp:12-15 | A controller at chamber 0 with cleared flags, an open latch and at most two resident levels satisfies the reachable-state invariant after startup. Without the tier reset it would not. |
| `ProgressionProofs.ConsistentTier` | 02-SprintGame_ProgressionHandler.cpp:179-205 | In every reachable state the tier is 0 to 3, so the fallback row is never read. At a checkpoint before its intermission, the next tier is also 0 to 3. |
| `ProgressionProofs.ProgressionKeepsConsistent` | 02-SprintGame_ProgressionHandler.cpp:43-93 | From a reachable state, with a table that is unbound or has all four tier rows, a trigger is defined. It leads to a reachable state and never lowers the tier. |
| `ProgressionProofs.Run` | 02-SprintGame_ProgressionHandler.cpp:43-93 | Any run of triggers from a reachable state ends in a reachable state, with index and tier no lower than at the start. |
| `ProgressionProofs.RunBounds` | 02-SprintGame_ProgressionHandler.cpp:43-93 | Over any run from a reachable state: the index never exceeds 99, at most two levels are resident, the latch is open after every call, and the tier stays within 0 to 3 and never drops. So the intermission fallback that resets the tier is never reached. |
| `ProgressionProofs.CheckpointReachedAsChamber` | 02-SprintGame_ProgressionHandler.cpp:71-79 | From a reachable state just before a checkpoint (such as chamber 24), the trigger reaches the checkpoint index as an ordinary chamber. It keeps the tier, leaves the intermission flag clear and ends in a reachable state. So the intermission is entered only by the following trigger. |
| `ProgressionProofs.CheckpointTakesTwoCalls` | 02-SprintGame_ProgressionHandler.cpp:56-69 | From a reachable state at a checkpoint outside its intermission, two triggers run as follows. The first keeps the index, sets the intermission flag and raises the tier by one. The second moves to the next index, clears both flags, keeps the raised tier and ends in a reachable state. |
| `Sequences.RemovedOnceCount` | 02-SprintGame_ProgressionHandler.cpp:236-239 | Removing the first copy of a value takes exactly one copy of it away and keeps every other value's count. A value that does not occur changes nothing. |
| `ProgressionProofs.LoadLevelFromTier` | 02-SprintGame_ProgressionHandler.cpp:236-239 | Loading a level keeps the pool inside the current tier's row, counting duplicates, because it only takes a copy away. |
| `ProgressionProofs.LoadChamberFromTier` | 02-SprintGame_ProgressionHandler.cpp:96-132 | With a table, a chamber load keeps the pool inside the current tier's row, counting duplicates. This holds both when it picks from the existing pool and when it refills the pool from the row. |
| `ProgressionProofs.LoadIntermissionFromTier` | 02-SprintGame_ProgressionHandler.cpp:135-170 | With a table, entering an intermission leaves a pool inside the row of the tier it switches to. So the chambers after a checkpoint are drawn from the new tier. |
| `ProgressionProofs.TierPoolPreserved` | 02-SprintGame_ProgressionHandler.cpp:43-93 | From a reachable state whose pool lies inside its tier's row, a trigger leads to a state whose pool lies inside the row of its own tier, which may be the next one. |
| `ProgressionProofs.RunFromTier` | 02-SprintGame_ProgressionHandler.cpp:43-93 | From a reachable state whose pool lies inside its tier's row, after any run of triggers the pool still lies inside the row of the tier reached. |
| `ProgressionProofs.ChamberFromTier` | 02-SprintGame_ProgressionHandler.cpp:105-120 | From such a state, a trigger that loads an ordinary chamber, or returns from an intermission, requests only a level listed in the row of the tier being played. |
| `ProgressionProofs.ExclusionIsSingle` | 02-SprintGame_ProgressionHandler.cpp:216-220 | A refresh removes exactly one copy of the current level from the row and keeps every other level's count. A current level listed at least twice therefore stays in the pool. |
| `ProgressionProofs.ExclusionNotPermanent` | 02-SprintGame_ProgressionHandler.cpp:176-220 | The refreshed pool depends only on the tier's row and the current level, not on the pool before the refresh. A level excluded while it was current is back in the pool once another level is current. |
| `ProgressionProofs.LoadKeepsDuplicate` | 02-SprintGame_ProgressionHandler.cpp:236-239 | Loading a level that has two or more copies in the pool leaves it in the pool. |
| `ProgressionProofs.UnboundTableAdvancesWithoutLoad` | 02-SprintGame_ProgressionHandler.cpp:71-79 | With no table and an empty pool, an ordinary trigger advances the index by one. It requests and unloads nothing, keeps the current and resident levels, and leaves the latch open. |

## Left out

- The grapple swing component (`GrappleSwing.cpp`) is left out. It is floating-point vector physics over engine kinematics. Its reel guard tests `ropeLength > 200` before subtracting, so no floor at exactly 200 would hold anyway.
- Level streaming is reduced to a `StreamOutcome`: a success carrying an opaque handle, or a failure. Making the level visible and asking an evicted level to unload are engine calls. They appear only as the requested level and the unloaded handle of a `Step`.
- The unique instance name built from the asset name and the chamber index is a foreign string call and is not modelled.
- The random index is an arbitrary integer in `Draw`. Only its validity for the pool decides anything. The source draws it from 0 to the pool size minus one (line 113), so there an invalid index occurs only with an empty pool. The model also admits out-of-range indices into a non-empty pool; these take the same no-load path as an empty pool.
- `Progression.RefreshLevelPool`, `Progression.LoadChamber`, `Progression.LoadIntermission` and `Progression.ChamberProgression` require that the row they would read exists (`HasRow`, `RowsAvailable`). The source dereferences the row without a check, which would crash; a crash is not modelled.
- The table handle's `RowName` field is not kept in the state. The source sets it to the tier's row name just before each `GetRow`. So the row read is that tier's row whether the lookup uses the handle's field or the string argument, and the model reads `RowName(difficulty)` directly. The handle's null test (line 176) belongs to engine code that is not part of this model. It is modelled as a fixed choice per configuration between `NoTable` and `Rows`. The row-name writes happen only on the non-null branch and never clear the name.
- On-screen debug messages, binding the table asset at startup (it shows up as a bound or unbound `DataTable`) and the empty `Tick` are not modelled.
- The initial values of the fields other than `difficulty` are declared in the class header, which is not part of this model. `ProgressionProofs.BeginPlayStartsConsistent` takes them as chamber 0, both flags false, an open latch and no resident levels.
- Integers are unbounded. The source's 32-bit `chamberIndex++` could only overflow from an index far outside 0 to 99, which no reachable state has.
