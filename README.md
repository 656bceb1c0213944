# Water sorter fill model

A Dafny model of the core of the water-sorter setup tool. The user builds a
row of tubes, picks one colour per tube, and watches the tubes being filled
one colour unit at a time in a random but fair order. The model covers:

- `Colors` (`colors.dfy`): the shared vocabulary. A colour is an opaque
  string token, a slot is `Option<Color>` (`null` in the source), and
  `MAX_LEVELS` is the tube capacity.
- `Filler` (`filler.dfy`): the fill engine. It holds:
  - `CloneTubes`, `GetEmptyTubes` and the Fisher–Yates `ShuffleColors`;
  - `GenerateFillResult` with its inventory map, its colour-to-tube map,
    its round queue and its `remaining` counter. The working grid is an
    `array2` written in place. Snapshots are `seq` values.
  - The engine is proved against a specification. `Deposit` and `Replays`
    say what a recorded history is. `Layout` says which grid an inventory
    stands for. Lemmas then prove the properties of every recorded run.
- `StepColors` (`step_colors.dfy`): the colour-selection rule. These are
  pure functions from the old selection to the new one.
- `App` (`app.dfy`): the wizard shell. `AppState` is a class whose methods
  are the handlers. Its invariant `Valid` holds the clamps on the tube
  counts, the selection rule, and the link between the selection and the
  result.
- `SolutionViewer` (`solution_viewer.dfy`): the player. `Viewer` is a
  two-field state machine (`currentStep`, `isPlaying`) over a recorded run.

The engine requires a `ValidSelection`: no colour twice and no empty token.
Under that precondition:

- the loop terminates after exactly `N * MAX_LEVELS` passes;
- none of its three `continue` branches is ever taken;
- the final snapshot has every tube full of its own colour.

## Model

| member | source | states |
|---|---|---|
| Filler.GetEmptyTubes | src/lib/filler.ts:18-22 | N tubes of MAX_LEVELS slots, every slot empty |
| Filler.CloneTubes | src/lib/filler.ts:14-16 | the copy has the working grid's dimensions and slot contents; as a value, later writes to the grid do not reach it |
| Filler.ShuffleColors | src/lib/filler.ts:24-33 | the result is a permutation of the input: same length, same multiset; the input is not changed |
| Filler.FirstEmpty | src/lib/filler.ts:73 | -1 exactly when the tube has no empty slot, otherwise the lowest empty slot |
| Filler.Deposit | src/lib/filler.ts:72-80 | the lowest empty slot of tube t gets the colour; every other slot is unchanged |
| Filler.Units | src/lib/filler.ts:53 | `inventory.get(color) ?? 0`: the stored count, or 0 for a colour the map does not hold |
| Filler.Available | src/lib/filler.ts:52-55 | exactly the selected colours with units left, none more often than in the input |
| Filler.IndexColors | src/lib/filler.ts:37-43 | every selected colour gets MAX_LEVELS units and a tube index that points back at that colour's position |
| Filler.OutstandingInitial | src/lib/filler.ts:40-47 | at the start, `remaining` (N * MAX_LEVELS) is the sum of the inventory |
| Filler.OutstandingTakeOne | src/lib/filler.ts:81-82 | with distinct colours, taking one unit lowers the inventory sum by one, so `remaining` stays equal to it |
| Filler.RoundQueue | src/lib/filler.ts:51-58 | while units are outstanding, a refilled queue is non-empty, holds only selected colours with units left, and no colour twice |
| Filler.Refill | src/lib/filler.ts:51-58 | a refilled queue satisfies the queue invariant: every queued colour has a tube and units left |
| Filler.Shift | src/lib/filler.ts:60 | `queue.shift()`: the head and the rest, or nothing on an empty queue |
| Filler.QueueStep | src/lib/filler.ts:60-70 | the popped colour is non-empty and has a tube that holds it, so the two `continue` guards never fire; the rest of the queue keeps the invariant |
| Filler.DepositLayout | src/lib/filler.ts:72-81 | a colour with units left has room in its tube just above the units already there, so the full-tube branch is unreachable |
| Filler.DepositStep | src/lib/filler.ts:72-88 | one deposit keeps the loop invariant: the sum of the inventory is `remaining`, the events and the units still to place add up to N * MAX_LEVELS, and the last snapshot matches the inventory |
| Filler.LayoutAccounts | src/lib/filler.ts:80-82 | loop invariant: the units a colour has left plus the filled slots of its tube equal MAX_LEVELS |
| Filler.WriteSlot | src/lib/filler.ts:80 | the working grid changes in the written slot only |
| Filler.PlaceUnit | src/lib/filler.ts:72-88 | a pass that places a unit lowers the colour's count and `remaining` by one; it appends exactly the event (target tube, colour) and the snapshot `Deposit` of the last one, leaving earlier history as it was; it keeps the loop invariant |
| Filler.FillPass | src/lib/filler.ts:51-88 | every pass places exactly one unit (`remaining` drops by one) and appends one snapshot, keeping the earlier ones; with a queue left, it pours the queue's head into that colour's tube, that colour's count drops by one and the queue loses its head; with an empty queue, the appended event pours some colour into its own tube, that colour's count drops by one, and the poured colour and the new queue together are a permutation of the colours with units left; it keeps the loop invariant |
| Filler.EngineDone | src/lib/filler.ts:50-95 | when the loop stops, there are N * MAX_LEVELS events, every tube is full of its own colour, and empty input gives `[[]]` and `[]` |
| Filler.GenerateFillResult | src/lib/filler.ts:35-96 | states[0] is the empty grid; each later snapshot applies one event; each event pours a tube's own colour; there are N * MAX_LEVELS events; the last snapshot is every tube full; the input is returned; empty input gives one empty snapshot and no events |
| Filler.HistoryStacked | src/lib/filler.ts:73-80 | in every snapshot, each tube's filled slots form a prefix and hold only that tube's colour |
| Filler.FilledSlotsPersist | src/lib/filler.ts:73-88 | a filled slot is never overwritten or cleared in any later snapshot |
| Filler.SnapshotStep | src/lib/filler.ts:80-88 | snapshot k+1 is snapshot k with one formerly empty slot set to event k's colour |
| Filler.FilledCountsDeliveries | src/lib/filler.ts:80-88 | each tube of snapshot k holds exactly as many units as the events before k poured into it |
| Filler.CompleteRunDeliveries | src/lib/filler.ts:47-89 | a completed run pours exactly MAX_LEVELS units into every tube |
| StepColors.Without | src/components/step-colors.tsx:32 | removes every occurrence of the colour and nothing else (membership and counts); the order is stated by `WithoutAt` |
| StepColors.WithoutConcat | src/components/step-colors.tsx:32 | filtering a concatenation is the concatenation of the filtered parts |
| StepColors.WithoutAt | src/components/step-colors.tsx:32 | in a duplicate-free list, filtering out the colour at position k gives the list without position k, the rest in order |
| StepColors.ToggleColor | src/components/step-colors.tsx:28-41 | a selected colour is removed and the others keep their counts (their order: `ToggleDeselectKeepsOrder`); with room, an unselected colour is appended after the old selection; without room, nothing changes |
| StepColors.ToggleDeselectKeepsOrder | src/components/step-colors.tsx:31-33 | deselecting the colour at position k of a valid selection removes that position and keeps the other colours in order |
| StepColors.IsComplete | src/components/step-colors.tsx:26 | a complete selection (one colour per fillable tube) has every unselected colour's button disabled |
| StepColors.ButtonDisabled | src/components/step-colors.tsx:58-61 | a click on a disabled button leaves the selection unchanged, so the `disabled` attribute and the handler's guard agree |
| StepColors.Reset | src/components/step-colors.tsx:43-45 | the selection becomes empty (and so duplicate-free) |
| StepColors.ToggleKeepsSelectionValid | src/components/step-colors.tsx:28-41 | a duplicate-free selection of at most requiredCount colours stays so after any click |
| StepColors.ToggleNoOpIffDisabled | src/components/step-colors.tsx:28-61 | a click changes the selection exactly when its button is not disabled |
| StepColors.ToggleTwice | src/components/step-colors.tsx:29-40 | clicking an addable colour twice restores the selection; clicking a selected one twice moves it to the end |
| StepColors.WithoutDistinct | src/components/step-colors.tsx:32 | deselecting keeps the selection duplicate-free and no longer |
| StepColors.CompleteDisablesNewColors | src/components/step-colors.tsx:26-61 | for a selection within bounds, `isComplete` holds exactly when the unselected buttons are disabled |
| App.NextTotal | src/App.tsx:35 | the new total is at least 2 and at most the palette size; it is prev + delta when that is in range, else the nearer bound |
| App.FitEmpty | src/App.tsx:36-38 | the empty count never grows and leaves at least one fillable tube; it is unchanged when it already fits, else exactly total - 1 |
| App.NextEmpty | src/App.tsx:46 | the new empty count lies in 0..total-1; it is prev + delta when that is in range, 0 below it and total - 1 above it |
| App.SlicePrefix | src/App.tsx:53 | `slice(0, end)`: a prefix of length min(len, end), or counted from the back for a negative end |
| App.StructureStaysClamped | src/App.tsx:33-50 | from clamped counts, either button keeps 2 <= total <= palette size and 0 <= empty <= total - 1, so fillable >= 1 |
| App.PrefixKeepsSelection | src/App.tsx:52-54 | truncating the selection keeps it duplicate-free and drawn from the old one |
| App.SelectionMeetsEngine | src/App.tsx:56-65 | a selection the shell can hold meets the engine's precondition |
| App.AppState.Fillable | src/App.tsx:28 | `totalTubes - emptyTubes`: with clamped counts, at least one and at most all of the tubes |
| App.AppState.constructor | src/App.tsx:20-26 | the initial state (3 tubes, 1 empty, structure screen, idle, no result) is valid |
| App.AppState.HandleTotalChange | src/App.tsx:33-41 | the total and empty count are set by the clamps; the invariant holds; fillable >= 1 |
| App.AppState.HandleEmptyChange | src/App.tsx:43-50 | the empty count is set by the clamp; the invariant holds; fillable >= 1 |
| App.AppState.NormalizeSelectedColors | src/App.tsx:52-54 | the selection is cut to at most `fillable` colours, keeping a prefix of the old list |
| App.AppState.HandleContinueToColors | src/App.tsx:81-84 | normalises the selection, then shows the colour screen, with the selection fitting the fillable tubes |
| App.AppState.HandleBackToStructure | src/App.tsx:77-79 | shows the structure screen and changes nothing else |
| App.AppState.ToggleColor | src/App.tsx:102-110 | the selection becomes the toggle of the old one for requiredCount = fillable, and the invariant holds |
| App.AppState.ResetColors | src/components/step-colors.tsx:43-45 | the selection becomes empty |
| App.AppState.HandleGenerateFill | src/App.tsx:56-63 | with an incomplete selection nothing changes; with a complete one the fill screen waits in the generating state |
| App.AppState.FinishGenerateFill | src/App.tsx:64-68 | the engine's result for the current selection is stored, the state is idle again, and the result is a completed run |
| App.AppState.HandleBackToSetup | src/App.tsx:71-75 | back to the colour screen with no result and the idle state |
| SolutionViewer.Advance | src/components/solution-viewer.tsx:45-53 | at the last step, the step stays and playback stops; otherwise the step grows by exactly one, staying in range |
| SolutionViewer.Retreat | src/components/solution-viewer.tsx:55-57 | one step back, with a floor of 0 |
| SolutionViewer.RetreatAdvanceInverse | src/components/solution-viewer.tsx:45-57 | away from the ends, backward undoes forward and forward undoes backward |
| SolutionViewer.TicksReachEnd | src/components/solution-viewer.tsx:68-78 | autoplay reaches the final snapshot after the number of steps left and stays there |
| SolutionViewer.TicksCount | src/components/solution-viewer.tsx:68-78 | before the end, n ticks move exactly n snapshots on |
| SolutionViewer.CurrentEvent | src/components/solution-viewer.tsx:30-33 | no event at step 0, else exactly `events[currentStep - 1]`, which turns the previous snapshot into the one shown |
| SolutionViewer.Viewer.constructor | src/components/solution-viewer.tsx:25-30 | the player opens paused on snapshot 0 |
| SolutionViewer.Viewer.GoToStart | src/components/solution-viewer.tsx:35-38 | step 0 and paused |
| SolutionViewer.Viewer.GoToEnd | src/components/solution-viewer.tsx:40-43 | the last step and paused |
| SolutionViewer.Viewer.GoForward | src/components/solution-viewer.tsx:45-53 | the step advances by `Advance`; playback stops at the end and is otherwise untouched; the step stays in range |
| SolutionViewer.Viewer.GoBackward | src/components/solution-viewer.tsx:55-57 | the step decreases with a floor of 0; playback is untouched |
| SolutionViewer.Viewer.TogglePlay | src/components/solution-viewer.tsx:59-66 | flips playback; starting from the final step rewinds to 0; otherwise the step is unchanged |
| SolutionViewer.Viewer.Tick | src/components/solution-viewer.tsx:68-78 | the autoplay tick makes the same transition as the forward button |

## Left out

- Rendering: the JSX, styling and the `Tube`, `Card`, `Button` and `Alert` components. The progress-bar percentage is also left out.
- React plumbing: `useState` scheduling, `useCallback` dependencies and `useEffect` cleanup. The handlers run as plain sequential transitions. The nested `setEmptyTubes` call inside the total updater is applied right after the new total is computed.
- Timers: the 800 ms autoplay interval and the 50 ms deferral of the engine run. `Viewer.Tick` is the interval's body and runs only while playing. `AppState.FinishGenerateFill` is the deferred body. The generating screen offers no handler, so nothing runs between the two halves of "Generate".
- The keyboard listener of the player. Its keys call `GoForward`, `GoBackward` and `TogglePlay`, which are modelled.
- `Math.random` and floating point. The random index of the shuffle is any `r` with `0 <= r <= index`, so every proof holds for every choice.
- The palette module `colors.ts` is not part of this model:
  - `MAX_LEVELS` is fixed at 4;
  - the palette is a constructor parameter of `AppState`: at least 3 distinct, non-empty tokens, since the shell starts with 3 tubes;
  - the display colours are not modelled.
- Screen wiring as preconditions: each `AppState` handler requires the screen on which the source shows its button. For example, the total buttons exist only on the structure screen.
- Duplicate colours and the empty token as engine input are excluded by `Filler.ValidSelection`:
  - with a repeated colour, the source gives it one inventory of MAX_LEVELS but counts N * MAX_LEVELS in `remaining`; once every colour's inventory is spent, `remaining` is still positive, the queue stays empty and the loop spins forever;
  - an empty token is falsy, so the `!nextColor` guard would skip it forever;
  - the shell never produces either input (`App.SelectionMeetsEngine`). The model follows the code, which does not terminate on such input.
- The working grid is one `array2` of N × MAX_LEVELS slots, not an array of row arrays. The source never shares rows, so aliasing between rows is not modelled. The engine reads the target tube through a copy of the grid, which yields the same row contents.
- Two parts of the `while` body are separate methods:
  - `Filler.FillPass` is the queue handling and the guards;
  - `Filler.PlaceUnit` is the write and the bookkeeping.
  The statements and their order are the source's.
