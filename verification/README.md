# Movement core of a Minecraft pathfinder, modelled in Dafny

This project models the discrete core of the movement layer of a Minecraft
pathfinding plugin (`src/mineflayer-specific/movements/`):

* **Successor generation** (`movements.ts`). The four movement categories
  are Forward, ForwardJump, ForwardDropDown and Diagonal. For each
  direction, a category reads a few neighbouring cells from a block
  classifier and decides whether the step is feasible. It then adds up a
  cost (base 1, 2 or √2, plus 0.1 per placement, plus the `safeOrBreak`
  surcharges), collects ordered break and place sub-tasks, and appends at
  most one move that exits at a cell centre. Candidates that cost more
  than 100 are discarded. The guard order of each category's
  `performPerTick` is modelled as a decision over a snapshot of the tick.
* **Interaction handlers** (`utils.ts`). These are the `performing`/`done`
  lifecycle of place and break handlers, the face-to-vector and neighbour
  mappings, and the earliest-tick search of `PlaceHandler.performInfo`.
* **The executor session** (`movementExecutor.ts`). This covers the
  `cancelled`/`resetting` flags, `abort`, the entry guards, the guard
  prefix of `isComplete`, the choice of the next interaction, and the
  bookkeeping of the current interaction.

Layout: `wrappers.dfy` (Option, Result, Outcome), `blocks.dfy` (cells,
points, block classification), `handlers.dfy` (module `Handlers`, from
`utils.ts`), `movements.dfy` (module `Movements`, from `movements.ts`) and
`executor.dfy` (module `Executor`, from `movementExecutor.ts`).

How the model is built:

* Each generator is an imperative method. It accumulates `cost`, appends
  to local break/place lists and returns early, in the order the source
  does. Its postcondition ties its result to a specification function
  (`ForwardEdge`, `JumpEdge`, `DropEdge`, `DiagonalEdge`). The properties
  of the category are proved as that function's postconditions.
* `provideMovements` is one loop over the direction list. It is proved to
  append exactly `AllEdges`, which is at most one move per direction, in
  order.
* The world is a parameter (`World`) that holds:
  * the cell classification;
  * `safeToBreak` and `safeOrBreak` from the `Movement` base class, as
    oracles;
  * the world's `minY`.
* A sub-task a generator creates is a `Task` value: the arguments of
  `fromVec`. `Move.fromPrevious` is a `Move` value holding its arguments.
* Place and break handlers share one class, `InteractHandler`, with a
  constant `role`. This gives two named constructors for the two
  `fromVec`s.
* Costs, heights and positions are exact `real`s, not doubles.
* The executor imports its handler class from `./interactionUtils`, and
  interactionUtils is not part of this model. The executor therefore works
  on the `InteractHandler` class of `utils.ts`. What the unseen handlers
  contribute is a parameter:
  * `_abort` calls are returned as a call log;
  * `performInfo`'s answer is an oracle `info`: whether its ticks are finite, or the error it throws;
  * `allowExit` and the outcome of `_perform` are booleans.

## Model

| member | source | states |
|---|---|---|
| Handlers.FaceToVec | src/mineflayer-specific/movements/utils.ts:121-140 | Exactly the face values outside the six block faces fail, and they fail with "Invalid face". |
| Handlers.FaceToVecUnit | src/mineflayer-specific/movements/utils.ts:121-140 | Each of the six block faces maps to a unit vector along one axis. |
| Handlers.FaceToVecInverse | src/mineflayer-specific/movements/utils.ts:121-140 | The face can be read back from its vector, so the six vectors are distinct. |
| Handlers.FaceToVecOnto | src/mineflayer-specific/movements/utils.ts:121-140 | Every unit axis vector is the vector of some face. |
| Handlers.InteractHandler.NearbyBlocks | src/mineflayer-specific/movements/utils.ts:110-119 | Returns exactly six cells, one per face, none of them the target itself. |
| Handlers.InteractHandler.NearbyBlocksAcrossFaces | src/mineflayer-specific/movements/utils.ts:110-119 | The `k`-th cell is the target's neighbour along `FaceToVec` of the `k`-th face in the order up, down, -z, +z, -x, +x. |
| Handlers.AcceptedHitsSound | src/mineflayer-specific/movements/utils.ts:161-176 | Every ray accepted in one tick hits a face whose neighbour is the target. No ray is accepted when the target box meets the predicted player box. Failures are only "Invalid face". |
| Handlers.AcceptedHitsFailure | src/mineflayer-specific/movements/utils.ts:162-164 | A tick throws exactly when one of its non-null hits has an unknown face. |
| Handlers.AcceptedHitsComplete | src/mineflayer-specific/movements/utils.ts:164-176 | Every hit aimed at the target is accepted when the player box is clear. |
| Handlers.AcceptedHitsPrefixFailure | src/mineflayer-specific/movements/utils.ts:161-164 | Once an earlier sample throws, the whole tick throws. |
| Handlers.SearchSound | src/mineflayer-specific/movements/utils.ts:157-182 | A finite result is the earliest tick below `ticks` with an accepted ray, carrying only that tick's rays, and no earlier tick accepted any. Otherwise the result is `Infinity` with no rays. `shiftTick` is always `Infinity`. |
| Handlers.SearchSkipsTo | src/mineflayer-specific/movements/utils.ts:158-181 | The search passes unchanged over an interval of ticks in which no tick accepts a ray and none throws. |
| Handlers.SearchFindsEarliest | src/mineflayer-specific/movements/utils.ts:158-181 | If tick `t` accepts rays and no earlier tick accepts any or throws, the search returns tick `t` with exactly those rays. |
| Handlers.Settle | src/mineflayer-specific/movements/utils.ts:229-251 | The polling loop of a solid placement completes exactly when the first poll that throws or has rays has rays. It rethrows the error of the first poll that settles. It keeps waiting only while no poll has settled. |
| Handlers.InteractHandler.PlaceFromVec | src/mineflayer-specific/movements/utils.ts:85-87 | A new place handler copies the position, type and offhand flag. It is neither performing nor done. |
| Handlers.InteractHandler.BreakFromVec | src/mineflayer-specific/movements/utils.ts:289-291 | A new break handler copies the position, type and offhand flag. It is neither performing nor done. |
| Handlers.InteractHandler.AllowExternalInfluence | src/mineflayer-specific/movements/utils.ts:68-79 | True whenever the handler is not performing. While performing, true exactly when the predicted position is within reach (4) of the target. |
| Handlers.InteractHandler.PerformInfo | src/mineflayer-specific/movements/utils.ts:142-192 | For a solid block, the nested tick/sample loops compute exactly `Search` from tick 0. The other types fail with "Not implemented". |
| Handlers.InteractHandler.ScanSamples | src/mineflayer-specific/movements/utils.ts:161-177 | The sample loop of one tick returns exactly `AcceptedHits` of that tick. An unset crouch tick stays unset. |
| Handlers.InteractHandler.PerformPlace | src/mineflayer-specific/movements/utils.ts:201-283 | Throws "Already performing" and changes nothing when already performing. Otherwise it sets `performing` first, so every later throw leaves it set. Later throws are: invalid item, wrong bucket, an error from a poll, not implemented. Success sets `done` and clears `performing`. |
| Handlers.InteractHandler.PerformBreak | src/mineflayer-specific/movements/utils.ts:318-361 | Has the same guard and flag order as place. A missing block throws "Invalid block". Success clears `performing`. It never changes `done`. |
| Movements.ForwardEdge | src/mineflayer-specific/movements/movements.ts:100-135 | Rejects a start in liquid. When D must be placed, rejects if no blocks remain or D is unbreakable. Any move has cost ≤ 100 and exits at the centre of `start + dir`. It places D exactly when D is not physical and C is not liquid. Its cost is 1 + 0.1 per place + the C and B surcharges, and it breaks D only when D is not replaceable. No move is produced exactly when one of these rejections fires: liquid start, no blocks, unbreakable D, or a cost over 100 after C or after B. |
| Movements.ForwardClearFloor | src/mineflayer-specific/movements/movements.ts:100-135 | A step onto a physical floor, from a dry start, with free C and B gives one move of cost 1 with no breaks or places. |
| Movements.GetMoveForward | src/mineflayer-specific/movements/movements.ts:100-135 | Appends exactly `ForwardEdge`'s move, if any, to `neighbors`. |
| Movements.JumpEdge | src/mineflayer-specific/movements/movements.ts:256-320 | Places D before C, at most two places, each adding 0.1 to base 2. Rejects when C needs placing and 0 blocks remain, or both need placing and 1 remains. Rejects when the climb exceeds 1.2. Cost ≤ 100 and the exit is the centre of the cell above C. No move is produced exactly when one rejection fires: missing blocks, an unbreakable D or C, a climb over 1.2, or a cost over 100 after A, B or H. |
| Movements.GetMoveJumpUp | src/mineflayer-specific/movements/movements.ts:256-320 | Appends exactly `JumpEdge`'s move, if any. |
| Movements.Landing | src/mineflayer-specific/movements/movements.ts:367-379 | The result lies in the scanned column. It is either a safe liquid above `minY`, or the cell above a physical floor no more than `maxDropDown` below the node. Every cell above it on the way down is passable. There is no result at or below `minY`, and the scan ends because `y` decreases. |
| Movements.LandingComplete | src/mineflayer-specific/movements/movements.ts:367-379 | Conversely, a safe liquid or reachable floor with only passable cells above it in the column is exactly the landing returned. |
| Movements.GetLandingBlock | src/mineflayer-specific/movements/movements.ts:367-379 | The `while` loop returns exactly `Landing` from two below the target column. |
| Movements.DropEdge | src/mineflayer-specific/movements/movements.ts:381-409 | Never places. Rejects when C is liquid, when there is no landing, or when the drop is too deep with finite liquid distance. Exits at the centre of the landing cell. The cost is 1 + the A, B, C, D surcharges and stays ≤ 100. No move is produced exactly when there is no landing, the drop is too deep with finite liquid distance, a prefix cost exceeds 100, or C is liquid. |
| Movements.DefaultDropIntoLiquid | src/mineflayer-specific/movements/movements.ts:324-325 | With the default settings (`maxDropDown` 3, unlimited liquid drop), a drop through a clear, free column into a safe liquid at any depth gives one move of cost 1 exiting at the liquid's centre. |
| Movements.GetMoveDropDown | src/mineflayer-specific/movements/movements.ts:381-409 | Appends exactly `DropEdge`'s move, if any. |
| Movements.DiagonalEdge | src/mineflayer-specific/movements/movements.ts:446-475 | Base √2, never places, cost ≤ 100, exits at the centre of `node + dir`. Rejects when the start is more than 0.6 above the target, when the target floor is not physical, or when the target is higher and either corner floor is physical. These rejections and a cost over 100 are exactly the cases with no move. |
| Movements.EdgeCostAtLeastOne | src/mineflayer-specific/movements/movements.ts:109 | When no `safeOrBreak` surcharge is negative, every move of every category costs at least 1. |
| Movements.GetMoveDiagonal | src/mineflayer-specific/movements/movements.ts:446-475 | Appends exactly `DiagonalEdge`'s move, if any. |
| Movements.Edge | src/mineflayer-specific/movements/movements.ts:26-419 | Dispatches to the four `provideMovements` bodies (lines 26-30, 139-143, 327-331, 415-419). Every move any category emits is within the cost ceiling, starts at the node, carries its category, and exits at the centre of a cell in the target column. |
| Movements.AllEdges | src/mineflayer-specific/movements/movements.ts:139-143 | At most one move per direction. Each move satisfies the emitted-move property for one of the directions. |
| Movements.ProvideMovements | src/mineflayer-specific/movements/movements.ts:26-30 | The direction loop appends exactly `AllEdges` to `storage`. |
| Movements.WalkTick | src/mineflayer-specific/movements/movements.ts:80-98 | The interaction gate comes first: it clears the controls and continues. Then the tick limit 160 cancels, then not being on ground cancels. The move is reached exactly when it is on ground within 0.2 of the exit. |
| Movements.JumpTick | src/mineflayer-specific/movements/movements.ts:227-246 | Gate first, then the tick limit, then "too low (1)" below -1. A landing after tick 0 below the exit cancels "too low (2)". Reached exactly when it lands at or above the exit within 0.3. |
| Movements.DropTick | src/mineflayer-specific/movements/movements.ts:347-365 | Gate first, then the tick limit, which is its only cancellation. Reached exactly when it is on ground, level with the exit and within 0.2. |
| Movements.PerTick | src/mineflayer-specific/movements/movements.ts:81-86 | For every category, a closed gate (a current interaction that disallows influence) is exactly the clear-and-continue outcome. Past tick 160 with an open gate it cancels. |
| Movements.IdleInteractionOpensGate | src/mineflayer-specific/movements/utils.ts:68-69 | A current interaction that is not performing never holds a move's tick back. |
| Executor.MovementExecutor.constructor | src/mineflayer-specific/movements/movementExecutor.ts:52-57 | A new executor starts neither cancelled nor resetting, with no current interaction. |
| Executor.MovementExecutor.Reset | src/mineflayer-specific/movements/movementExecutor.ts:66-69 | Clears both flags, which reopens the entry guard. |
| Executor.MovementExecutor.EntryGuard | src/mineflayer-specific/movements/movementExecutor.ts:108-112 | `ResetError` if resetting (checked first), else `AbortError` if cancelled, else pass. |
| Executor.MovementExecutor.PerformInit | src/mineflayer-specific/movements/movementExecutor.ts:108-112 | Raises the entry guard's error (reset before abort). Otherwise it returns the outcome of the category's `performInit`, so it passes exactly when neither flag is set and `performInit` succeeds. |
| Executor.MovementExecutor.PerformPerTick | src/mineflayer-specific/movements/movementExecutor.ts:114-118 | Raises the entry guard's error, else returns the category's per-tick decision. |
| Executor.MovementExecutor.Align | src/mineflayer-specific/movements/movementExecutor.ts:120-124 | Has the same guard order, else returns `align`'s answer. |
| Executor.MovementExecutor.Abort | src/mineflayer-specific/movements/movementExecutor.ts:74-106 | A no-op with no `_abort` calls when already cancelled or resetting. Otherwise it sets `cancelled` and `resetting` (default false) and uses timeout 1000 by default. It calls `_abort` on all breaks then all places, in order, and waits for the first safe tick. Afterwards the entry guard always fails. |
| Executor.FirstSafe | src/mineflayer-specific/movements/movementExecutor.ts:93-105 | The wait resolves at the first observed tick on which cancelling is safe. It times out exactly when no tick is safe. |
| Executor.SafeToCancel | src/mineflayer-specific/movements/movementExecutor.ts:323-325 | Cancelling is safe exactly when the bot is on the ground or in water. The move arguments play no part. |
| Executor.WaitSafe | src/mineflayer-specific/movements/movementExecutor.ts:93-105 | The `physicsTick` listener, checking `safeToCancel` on every observed tick, ends exactly as `FirstSafe`. |
| Executor.FirstSafePrefix | src/mineflayer-specific/movements/movementExecutor.ts:95-98 | Once a tick resolves the wait, later ticks do not change the outcome. |
| Executor.MovementExecutor.IsComplete | src/mineflayer-specific/movements/movementExecutor.ts:224-231 | False whenever a break or place is pending, or the current interaction forbids exit. Otherwise it is the geometric test. |
| Executor.FirstEligibleSound | src/mineflayer-specific/movements/movementExecutor.ts:333-349 | The scan asks every handler that is not the current interaction and not done. It returns null exactly when no asked handler has finite ticks or throws. Otherwise it stops at the first such handler: it returns that handler when its ticks are finite, or rethrows its error. |
| Executor.BreaksBeforePlaces | src/mineflayer-specific/movements/movementExecutor.ts:333-349 | A break that is eligible or throws decides before any place is asked. Places are scanned only when the breaks give null. |
| Executor.MovementExecutor.InteractPossible | src/mineflayer-specific/movements/movementExecutor.ts:333-349 | The two loops over breaks then places return exactly `FirstEligible` of breaks followed by places, including the error of the first `performInfo` that throws. |
| Executor.MovementExecutor.PerformInteraction | src/mineflayer-specific/movements/movementExecutor.ts:354-362 | Makes the handler current before running it. Succeeds exactly when the item or block is present and `_perform` succeeds, and only then clears the current interaction. |
| Executor.MovementExecutor.PerformPlace | src/mineflayer-specific/movements/movementExecutor.ts:364-369 | A missing item raises a cancel error. The current interaction is cleared only after success. |
| Executor.MovementExecutor.PerformBreak | src/mineflayer-specific/movements/movementExecutor.ts:371-377 | A missing block raises a cancel error. The current interaction is cleared only after success. |

## Left out

- Physics prediction (the simulated player state, `simulate`, `simUntil*`, `simJump`). Its results enter as parameters: the predicted point in `AllowExternalInfluence`, the per-tick raycasts and box test in `PerformInfo`, and the `TickSnapshot` of a per-tick step.
- Float vector geometry: `align`, the body of `isComplete` after its guards, `isLookingAt*` and box intersection. These reduce to booleans (`geometric`, `aligned`, `selfBox`).
- Raycasting, the sorting of sample vertices and of accepted rays, and the choice of the ray to place against. The rays are an oracle per tick and sample.
- Bot I/O: looking, control states, equipping, digging, placing, activating items, waiting for ticks, inventory lookup (`getItem`), `performInit` of each category, and logging.
- The event and timer plumbing of `abort`. The ticks seen before the timer fires are a parameter `observe(timeout)`. Rejecting on timeout is the `TimedOut` outcome.
- Handlers.InteractHandler.PerformPlace: the unbounded busy-wait is modelled over a finite sequence of polls, and `StillWaiting` stands for "still polling". After the loop at least one ray exists, so the source's "Invalid block" throw after it cannot happen and is not modelled.
- Handlers.InteractHandler.PerformInfo: `ticks` is a parameter; the source's default of 7 is not modelled. Because the update of `shiftTick` is guarded by `shiftTick !== Infinity`, it can never run; the model keeps this and `shiftTick` stays `Infinity`.
- `BreakHandler.performInfo` returns `true`, which has no `ticks` field. `interactPossible` therefore takes the answer of `performInfo` as the oracle `info`.
- Executor.MovementExecutor.PerformInit: what the category's `performInit` does before it returns (looking, control states, running an interaction that sets and clears the current interaction) is not modelled. Only its outcome is kept.
- The `./interactionUtils` handlers (`_abort`, `_perform`, `allowExit`, `loadMove`) are not part of this model and enter only as parameters.
- Executor.MovementExecutor.IsComplete: `toBreakLen()` and `toPlaceLen()` come from the `Movement` base class, which is not part of this model. They are the parameters `pendingBreaks` and `pendingPlaces`.
- The `Movement` base class: `getBlockInfo` is the `Cells` oracle, and `safeToBreak`/`safeOrBreak` are the `World` oracles. `cardinalDirs`/`diagonalDirs` are the `dirs` parameter of `ProvideMovements`.
- Movements.GetLandingBlock: an unloaded cell without a position ends the source's scan. The model's cells always have a position, so this case is not modelled.
- Doubles: costs, heights and distances are exact reals. The rounding of repeated `+= 0.1` and of `√2` sums is not modelled, and `Movements.DiagonalCost` is the decimal literal of the source.
- The generators' `performPerTick` side effects (`lookAt`, sprint and jump controls) are not modelled. Only the decision each tick returns is kept.
- Diagonal side clearance: when the target is higher than the start, the code rejects the step if either corner floor cell is physical, so both corners must be clear. The model follows the code.
