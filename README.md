# MatchJoy rules engine in Dafny

This project models the rules engine of MatchJoy. MatchJoy is a Unity tile-matching game built on the card game "Set". Each tile carries a value (`MatchSet`) with three three-valued attributes: a colour, a number and a symbol. Three tiles match when, for each attribute, the three values sum to a multiple of 3.

The model has six modules, one per source file plus two shared ones:

- `Wrappers`: the `Option` datatype.
- `Common`: the navigator's `ViewType`, the board's two events and the digit character that both the board and the score displays use.
- `MatchUtility` (`MatchUtility.cs`):
  - the `MatchSet` value and its two enums;
  - `CheckMatch`;
  - `GetMatch` exactly as written;
  - `Completion`, the completion `GetMatch` was meant to compute.
- `Tiles` (`Components/Tile.cs`): class `Tile`.
  - Its fields are the committed value, `_isReady` and `_isSelected`.
  - Each coroutine (`Delay`, `Disappear`, `Shake`) becomes a start step plus a separate finish step. The tile counts the coroutines it has in flight.
  - The tile also counts how many times `IsSelectedChanged` has been raised.
- `Board` (`Components/GameBoard.cs`): class `GameBoard`.
  - Its fields are the pool of inactive values (`set<MatchSet>`) and the tiles.
  - It covers the 27-value universe built by `Awake`, `Start`, `OnNavigate`, the selection handler `OnIsSelectedChange` and both `ResetTiles` overloads.
  - `Tile.Select` lives here as `GameBoard.Select`: the `IsSelected` setter runs the board's handler synchronously, in the middle of `Select`.
- `Scores` (`Components/Scoreboard.cs`, `Components/Highscore.cs`):
  - the clamping `Score` setters;
  - the three-renderer digit display (`SetScore`, one `Display` class shared by both components);
  - score changes on match events;
  - `TryAddHighScore`;
  - `OnNavigate`.

The board's correctness is stated with ghost predicates over whole-board snapshots of tile states (`StatesOf`):

- `ResetResult` says what `ResetTiles` does.
- `HandlerResult` says what the selection handler does.
- `PartitionOf` is the invariant: the pool and the values the tiles hold (counting a `Disappear` in flight) split the 27 values.

How the forced last value is computed:

- The forced last value (GameBoard.cs:178) is computed from the first two shuffled tiles' committed values from before the call. The code reads `CurrentMatchSet` before any `Disappear` has committed, and the same call releases those values to the pool.
- The forced value comes from `GetMatch` as written, not from a working completion (see Findings).

## Model

| member | source | states |
|---|---|---|
| MatchUtility.CheckMatch | MatchJoyUnity/Assets/Scripts/MatchUtility.cs:35-40 | false unless there are exactly three values; for three values, true iff the colour, number and symbol sums are each multiples of 3 (C#'s truncating `%` is modelled by `CsRem` and shown to agree) |
| MatchUtility.CsRem | MatchJoyUnity/Assets/Scripts/MatchUtility.cs:37-39 | C#'s `%` takes the sign of the dividend, lies strictly between -m and m, and differs from the dividend by a multiple of m |
| MatchUtility.CsRemZero | MatchJoyUnity/Assets/Scripts/MatchUtility.cs:37-39 | a truncated remainder by 3 is zero iff the number is a multiple of 3 |
| MatchUtility.CheckMatchPermutation | MatchJoyUnity/Assets/Scripts/MatchUtility.cs:35-40 | any rearrangement of the values gives the same answer |
| MatchUtility.SumOfPermutation | MatchJoyUnity/Assets/Scripts/MatchUtility.cs:37-39 | an attribute sum does not depend on the order of the values |
| MatchUtility.CheckMatchIgnoresSprite | MatchJoyUnity/Assets/Scripts/MatchUtility.cs:35-40 | values with the same faces give the same answer, whatever their sprites |
| MatchUtility.ThreeOfAKindMatch | MatchJoyUnity/Assets/Scripts/MatchUtility.cs:37-39 | three copies of one value always match |
| MatchUtility.Completion | MatchJoyUnity/Assets/Scripts/MatchUtility.cs:42-48 | the intended "third value" is well-formed, has no sprite, and always completes a match with the two inputs |
| MatchUtility.CompletionUnique | MatchJoyUnity/Assets/Scripts/MatchUtility.cs:37-39 | a well-formed third value matches two given values iff it has the completion's face |
| MatchUtility.LastGuardHit | MatchJoyUnity/Assets/Scripts/MatchUtility.cs:51-64 | a field overwritten in a loop ends as the last index whose guard held, or keeps its default 0 when no guard held |
| MatchUtility.GetMatch | MatchJoyUnity/Assets/Scripts/MatchUtility.cs:48-67 | the three loops produce WrittenMatch; for well-formed inputs the result is always Blue, 0, At with no sprite |
| MatchUtility.WrittenMatchIsDefault | MatchJoyUnity/Assets/Scripts/MatchUtility.cs:52-62 | each guard `k + f + s % 3 == 0` holds only at k = f = s = 0, so for game values every field stays at its default |
| MatchUtility.WrittenMatchCompletesOnlyDefault | MatchJoyUnity/Assets/Scripts/MatchUtility.cs:35-67 | GetMatch's result completes a match iff the true completion happens to be Blue, 0, At |
| MatchUtility.WrittenMatchCounterexample | MatchJoyUnity/Assets/Scripts/MatchUtility.cs:35-67 | for (Blue,0,At) and (Red,1,Plus), GetMatch gives (Blue,0,At), which does not match; the completion (Yellow,2,Slash) does |
| Tiles.HoldingOf | MatchJoyUnity/Assets/Scripts/Components/GameBoard.cs:171-185 | a tile holds the value of its latest Disappear in flight; with none in flight, it holds its committed value exactly when that value has a sprite |
| Tiles.Tile.constructor | MatchJoyUnity/Assets/Scripts/Components/Tile.cs:43-162 | a fresh tile is ready and unselected, holds no value, runs no coroutine, and has raised IsSelectedChanged once (Awake writes through the setter) |
| Tiles.Tile.SetSelected | MatchJoyUnity/Assets/Scripts/Components/Tile.cs:110-119 | every write through the setter stores the value and raises IsSelectedChanged exactly once, even when the value is unchanged |
| Tiles.Tile.StartDelay | MatchJoyUnity/Assets/Scripts/Components/Tile.cs:168-171 | starting Delay makes the tile unready and adds one pending Delay |
| Tiles.Tile.FinishDelay | MatchJoyUnity/Assets/Scripts/Components/Tile.cs:172-174 | a finishing Delay makes the tile ready again (the state becomes DelayFinished of the old one) |
| Tiles.Tile.DisappearTile | MatchJoyUnity/Assets/Scripts/Components/Tile.cs:131-187 | cancels every pending Delay; the tile is at once unready and unselected with no event raised; the committed value is unchanged; the new value is queued and becomes the holding |
| Tiles.Tile.FinishDisappear | MatchJoyUnity/Assets/Scripts/Components/Tile.cs:188-192 | the oldest queued value is committed, the tile is unselected (one event) and ready, and the holding is kept |
| Tiles.Tile.ShakeTile | MatchJoyUnity/Assets/Scripts/Components/Tile.cs:138-205 | cancels every pending Delay and makes the tile unready and unselected with no event raised; value and queued values are untouched |
| Tiles.Tile.FinishShake | MatchJoyUnity/Assets/Scripts/Components/Tile.cs:209-212 | the tile is unselected (one event) and ready; the value is untouched |
| Tiles.DelayAfterDisappear | MatchJoyUnity/Assets/Scripts/Components/Tile.cs:145-193 | as Select is written, a Delay started after the tile's Disappear breaks the guard "a tile with a Disappear in flight is unready and has no Delay"; once that Delay finishes, the tile is ready while its Disappear is still in flight and its old value still committed |
| Tiles.DelayBeforeDisappear | MatchJoyUnity/Assets/Scripts/Components/Tile.cs:168-193 | a Delay started before the Disappear is stopped by it, and the guard then holds; a Delay on a ready tile, a finishing Delay and a Shake keep the guard |
| Board.BuildUniverse | MatchJoyUnity/Assets/Scripts/Components/GameBoard.cs:39-57 | Awake's three nested loops build exactly the universe: one value per colour, number and symbol |
| Board.UniverseFacts | MatchJoyUnity/Assets/Scripts/Components/GameBoard.cs:42-55 | the universe has 27 values; each is well-formed and has a sprite; no two share a face; every well-formed face is in it |
| Board.FacesBelowSize | MatchJoyUnity/Assets/Scripts/Components/GameBoard.cs:42-55 | the first k loop steps give k distinct values |
| Board.FaceAtNew | MatchJoyUnity/Assets/Scripts/Components/GameBoard.cs:42-55 | each loop step adds a value no earlier step added |
| Board.ExactlyOneCompletion | MatchJoyUnity/Assets/Scripts/MatchUtility.cs:37-39 | for any two values, exactly one value of the universe completes a match with them |
| Board.GameBoard.constructor | MatchJoyUnity/Assets/Scripts/Components/GameBoard.cs:19-57 | the pool starts as the whole universe; with no tile holding a value, the pool and the tiles split the universe |
| Board.Shuffle | MatchJoyUnity/Assets/Scripts/Components/GameBoard.cs:161 | the shuffled batch is a permutation of the batch, with no repeats |
| Board.Draw | MatchJoyUnity/Assets/Scripts/Components/GameBoard.cs:164-180 | the draw fails iff the snapshot is smaller than the batch; the values drawn are distinct and come from the snapshot; the last one has the forced face whenever such a value was left |
| Board.GameBoard.ResetTiles | MatchJoyUnity/Assets/Scripts/Components/GameBoard.cs:155-187 | fewer than three tiles: nothing changes. Otherwise, as ResetResult: a permutation of the batch; distinct new values from the pool snapshot; each tile starts disappearing towards its value; pool = step-by-step release and draw; last value forced by GetMatch of the pre-call values; a throw exactly when the snapshot runs out |
| Board.GameBoard.ReplaceAll | MatchJoyUnity/Assets/Scripts/Components/GameBoard.cs:167-186 | tile order[j] gives back its committed value and starts disappearing towards values[j]; the pool follows ReleaseDraw |
| Board.GameBoard.Replace | MatchJoyUnity/Assets/Scripts/Components/GameBoard.cs:168-175 | one tile: its value returns to the pool if it has a sprite, m leaves the pool, and only that tile changes |
| Board.PartitionStep | MatchJoyUnity/Assets/Scripts/Components/GameBoard.cs:171-175 | releasing one tile's holding and handing it a pool value keeps the partition |
| Board.ReleasedOffPool | MatchJoyUnity/Assets/Scripts/Components/GameBoard.cs:171-172 | a batch tile's committed value with a sprite, with no Disappear in flight, is not in the pool before it is given back |
| Board.ReleaseDrawSplit | MatchJoyUnity/Assets/Scripts/Components/GameBoard.cs:171-186 | the step-by-step pool equals (pool minus the values drawn) plus the released values |
| Board.ResetPreservesPartition | MatchJoyUnity/Assets/Scripts/Components/GameBoard.cs:164-186 | with no Disappear in flight on the batch, ResetTiles keeps the pool/tile partition of the 27 values; the new pool is (pool - new values) + released values; no new value equals a released one |
| Board.ResetTouchesOnlyBatch | MatchJoyUnity/Assets/Scripts/Components/GameBoard.cs:167-186 | tiles outside the batch are untouched; without a throw, every batch tile is disappearing towards its own new value |
| Board.ResetForcesDefault | MatchJoyUnity/Assets/Scripts/Components/GameBoard.cs:178-180 | when the first two tiles had game values, the last tile is forced towards Blue, 0, At whatever those values were |
| Board.CompletionForcesMatch | MatchJoyUnity/Assets/Scripts/Components/GameBoard.cs:178-180 | with the completion in place of GetMatch, the forced last value would complete a match with the first two values whenever one was left |
| Board.PreCallCompletionNeverLeft | MatchJoyUnity/Assets/Scripts/Components/GameBoard.cs:164-180 | when the first two values given to the forcing and a value held by some tile match, no pool value has the completion's face: forcing from the pre-call values never fires after a match, even with a correct completion |
| Board.HandedValueHeld | MatchJoyUnity/Assets/Scripts/Components/GameBoard.cs:167-186 | after a reset without a throw, the tile order[j] holds the value values[j] |
| Board.FirstTwoAndLastHeld | MatchJoyUnity/Assets/Scripts/Components/GameBoard.cs:167-186 | the tiles given the first two values and the last value hold them after the reset |
| Board.LastDrawnMatches | MatchJoyUnity/Assets/Scripts/Components/GameBoard.cs:178-180 | forcing on the completion of the first two new values gives a last value that completes a match with them whenever one was left |
| Board.NewValuesForceMatch | MatchJoyUnity/Assets/Scripts/Components/GameBoard.cs:164-186 | with the intended forcing, the first two tiles and the last tile hold three values that match, whenever a value of the completion's face was left |
| Board.SelectedIndices | MatchJoyUnity/Assets/Scripts/Components/GameBoard.cs:86 | exactly the selected tiles' positions, in increasing board order |
| Board.GameBoard.SelectedTiles | MatchJoyUnity/Assets/Scripts/Components/GameBoard.cs:86 | the loop collects exactly SelectedIndices of the current states |
| Board.Judge | MatchJoyUnity/Assets/Scripts/Components/GameBoard.cs:81-91 | ignored iff the sender is unselected or the selected count is not 3; otherwise a match iff CheckMatch holds on the three committed values |
| Board.GameBoard.OnIsSelectedChange | MatchJoyUnity/Assets/Scripts/Components/GameBoard.cs:80-104 | HandlerResult: when ignored nothing changes and nothing is raised; on a match exactly the three selected tiles are reset and SuccessfulMatch is raised unless ResetTiles threw; on a mismatch the three shake, the pool is unchanged and UnsuccessfulMatch is raised |
| Board.GameBoard.EvaluateThree | MatchJoyUnity/Assets/Scripts/Components/GameBoard.cs:90-103 | the three selected tiles are reset or shaken according to CheckMatch on their values, and the matching event is raised |
| Board.GameBoard.MatchThree | MatchJoyUnity/Assets/Scripts/Components/GameBoard.cs:91-94 | a match resets exactly the tiles at the selected positions |
| Board.GameBoard.ShakeAll | MatchJoyUnity/Assets/Scripts/Components/GameBoard.cs:98-100 | exactly the selected tiles start shaking; every other tile is unchanged |
| Board.ShakeKeepsHoldings | MatchJoyUnity/Assets/Scripts/Components/GameBoard.cs:98-100 | shaking changes no tile's holding, so a mismatch leaves the partition as it was |
| Board.HoldingsUpdate | MatchJoyUnity/Assets/Scripts/Components/Tile.cs:110-212 | replacing one tile's state changes only that tile's holding |
| Board.SameHoldings | MatchJoyUnity/Assets/Scripts/Components/Tile.cs:110-212 | a state change that keeps a tile's holding keeps every holding |
| Board.HandlerKeepsPartition | MatchJoyUnity/Assets/Scripts/Components/GameBoard.cs:80-104 | on a board of at most 24 distinct tiles, with no Disappear in flight on the selected tiles, the handler never throws and keeps the partition; a match raises SuccessfulMatch |
| Board.PoolSize | MatchJoyUnity/Assets/Scripts/Components/GameBoard.cs:164-168 | under the partition, the pool keeps at least 27 minus the number of tiles, so First() cannot run out on the nine-tile board |
| Board.GameBoard.Select | MatchJoyUnity/Assets/Scripts/Components/Tile.cs:145-151 | an unready tile changes nothing. A ready tile toggles through the setter; the handler sees the toggled states; Delay starts on the tile only after the handler returns, and not when it threw |
| Board.MatchedSenderGetsDelay | MatchJoyUnity/Assets/Scripts/Components/Tile.cs:145-193 | the tile whose selection completed a match has its Disappear in flight and no Delay when Select starts its Delay, so it ends with exactly one pending Delay; this breaks the Disappear guard, and once the Delay finishes the tile is ready with its Disappear still in flight |
| Board.SelectionWrite | MatchJoyUnity/Assets/Scripts/Components/Tile.cs:145-148 | the setter's write changes no holding and no pending value |
| Board.SelectKeepsPartition | MatchJoyUnity/Assets/Scripts/Components/Tile.cs:145-151 | a whole Select (setter write, handler, then the Delay) on a board of at most 24 distinct tiles, with no Disappear in flight on the selected tiles, never throws and keeps the pool/tile partition |
| Board.DelayKeepsPartition | MatchJoyUnity/Assets/Scripts/Components/Tile.cs:149 | the Delay started after the handler changes no holding, so the partition is kept |
| Board.FinishKeepsPartition | MatchJoyUnity/Assets/Scripts/Components/Tile.cs:168-212 | a finishing Delay, Shake or Disappear keeps the pool/tile partition of the whole board |
| Board.GameBoard.SelectAllDetached | MatchJoyUnity/Assets/Scripts/Components/GameBoard.cs:67-71 | every tile is set selected through its setter (one event each) and nothing else changes, so no match is evaluated |
| Board.GameBoard.Start | MatchJoyUnity/Assets/Scripts/Components/GameBoard.cs:62-74 | all tiles are set selected with the handler detached, then all are reset (ResetResult over the whole board) |
| Board.GameBoard.OnNavigate | MatchJoyUnity/Assets/Scripts/Components/GameBoard.cs:111-121 | only a navigation to the game board does anything, and then it does what Start does |
| Board.BoardResetKeepsPartition | MatchJoyUnity/Assets/Scripts/Components/GameBoard.cs:62-74 | on a board of 3 to 13 distinct tiles with the partition and no Disappear in flight, the full reset never throws and keeps the partition; every tile ends unselected and unready, waiting for its Disappear |
| Scores.Clamp | MatchJoyUnity/Assets/Scripts/Components/Scoreboard.cs:58-64 | the result lies in 0..999, equals the input inside that range, and saturates below 0 and above 999 |
| Scores.ClampIdempotentMonotone | MatchJoyUnity/Assets/Scripts/Components/Scoreboard.cs:58-64 | clamping twice is clamping once, and clamping keeps the order of scores |
| Scores.DecimalString | MatchJoyUnity/Assets/Scripts/Components/Scoreboard.cs:66 | int.ToString() of a non-negative score: decimal digits with no leading zero; at most three of them below 1000 |
| Scores.DecimalRoundTrip | MatchJoyUnity/Assets/Scripts/Components/Scoreboard.cs:66 | reading the decimal text back gives the number |
| Scores.DisplayShowsScore | MatchJoyUnity/Assets/Scripts/Components/Scoreboard.cs:148-164 | for a score in 0..999 the renderers show its units, tens and hundreds digits: read in reverse they are the score zero-padded to three digits |
| Scores.Display.constructor | MatchJoyUnity/Assets/Scripts/Components/Scoreboard.cs:73-84 | three renderers, each showing '0' |
| Scores.Display.SetScore | MatchJoyUnity/Assets/Scripts/Components/Scoreboard.cs:148-164 | a string longer than three characters changes nothing; otherwise renderer j shows the j-th character from the right and the rest show '0' |
| Scores.Digits | MatchJoyUnity/Assets/Scripts/Components/Scoreboard.cs:148-164 | three digit characters: what the renderers show for a score in 0..999, units first |
| Scores.Highscore.constructor | MatchJoyUnity/Assets/Scripts/Components/Highscore.cs:25-68 | score 0 and a display showing "000"; the read-out is valid: its display shows the digits of its score |
| Scores.Highscore.UpdateScore | MatchJoyUnity/Assets/Scripts/Components/Highscore.cs:41-89 | the Score setter keeps the value clamped into 0..999 and redraws the display with its units, tens and hundreds digits, so the display shows Digits of the score |
| Scores.RecordedIsMax | MatchJoyUnity/Assets/Scripts/Components/Scoreboard.cs:166-176 | the stored high score becomes the larger of the previous one (0 when none) and the score; it never decreases; recording the same score again changes nothing |
| Scores.Scoreboard.constructor | MatchJoyUnity/Assets/Scripts/Components/Scoreboard.cs:26-84 | score 0, a display showing "000", and the two read-outs given |
| Scores.Scoreboard.UpdateScore | MatchJoyUnity/Assets/Scripts/Components/Scoreboard.cs:58-67 | the private setter keeps the score in 0..999 and redraws its digits |
| Scores.Scoreboard.OnSuccessfulMatch | MatchJoyUnity/Assets/Scripts/Components/Scoreboard.cs:134-136 | three points more, saturating at 999; the display shows the new score's digits |
| Scores.Scoreboard.OnUnsuccessfulMatch | MatchJoyUnity/Assets/Scripts/Components/Scoreboard.cs:141-143 | one point less, saturating at 0; the display shows the new score's digits |
| Scores.Scoreboard.OnBoardEvent | MatchJoyUnity/Assets/Scripts/Components/Scoreboard.cs:102-110 | each board event reaches its own handler: +3 on SuccessfulMatch and -1 on UnsuccessfulMatch, clamped; the display shows the new score's digits |
| Scores.Scoreboard.TryAddHighScore | MatchJoyUnity/Assets/Scripts/Components/Scoreboard.cs:166-176 | the current read-out gets the score; the best one gets the larger of the score and the stored score; the stored score is rewritten only when strictly beaten; each read-out's display shows the digits of its new score |
| Scores.Scoreboard.OnNavigate | MatchJoyUnity/Assets/Scripts/Components/Scoreboard.cs:124-129 | towards the game board the score resets to 0 and the display shows "000"; only Gameboard to End records high scores, and both read-outs then show their new scores; any other navigation changes nothing, displays included |

## Left out

- Rendering: sprite renderers, the selected/unselected sprites, the shake offsets (float positions) and the sprite lookup of PixelFont. A sprite is kept only as a name. Every sprite resource `Awake` looks up is taken to exist, so every universe value has a sprite.
- Time: `WaitForSeconds` durations. Each coroutine is a start step plus a finish step that may run at any later point.
- Overlapping `Disappear` coroutines on one tile are left out: a reset that reaches a tile whose `Disappear` is still in flight is a timing interleaving. The partition lemmas require no `Disappear` in flight on the tiles being reset.
- Tiles.Tile.FinishDisappear: states that the holding is kept only when the committed value has a sprite, which every value of the universe has.
- `Randomize` (external library) is an arbitrary permutation, and the random choice from the pool snapshot is an arbitrary choice. No probabilities are modelled.
- Audio clips, the mute button, the camera, the navigator and its views, the countdown `Counter`, the in-game logger and the float `Constants` are not part of this model.
- `PlayerPrefs` is not modelled as storage. The stored high score is an `Option<int>` parameter, and the method returns what is stored afterwards.
- Event plumbing: subscriptions and `SafeInvoke` are direct calls. The board returns the event it raises (`raised`), and `Scores.Scoreboard.OnBoardEvent` delivers it. `Scoreboard.OnEnable`/`OnDisable` are not modelled.
- `Tile.Select` exists only as `Board.GameBoard.Select`, because the board's handler is always subscribed to every tile. An exception escaping the handler (`First()` on an empty list) is the `ok = false` result.
- `Board.GameBoard.ResetTiles` makes all of its draws before it hands out any value. The draws depend only on the snapshot and on committed values, and no step of the loop changes either, so the outcome is the source's. For the last tile, the source starts `Disappear` before it removes the value from the pool; the model swaps those two steps, which touch disjoint state.
- `Board.GameBoard.Start` is a separate method, called after the constructor; `Board.GameBoard.OnNavigate(Gameboard)` calls it. Finding the tiles (`GetComponentsInChildren`) becomes the constructor's parameter, and the navigator subscription is not modelled.
- `Board.HandlerKeepsPartition`, `Board.SelectKeepsPartition` and `Board.BoardResetKeepsPartition` hold for boards of at most 24 and 13 tiles. The real board has 9.
- Dead code: `GameBoard.OnRelease`, `GameBoard.OnRestart` and `MatchUtility.CombineMatchProperties` are never called.
- `Scores.Highscore.constructor` starts the score at 0, its initialiser. A value serialised into the scene is not modelled.
- Integer overflow: C# `int` is 32-bit. The clamps keep every score in 0..999, so no wrap-around can arise and scores are unbounded integers here.

## Findings

| source | as written | input that shows it | evidently intended | confidence | as-written member | corrected member |
|---|---|---|---|---|---|---|
| MatchJoyUnity/Assets/Scripts/MatchUtility.cs:52-62 | `x + first.x + second.x % 3 == 0`: the `% 3` binds to `second.x` alone. Over non-negative terms the guard holds only when all three are 0, so GetMatch always returns Blue, 0, At, and ResetTiles forces that value instead of a completion | first = (Blue, 0, At), second = (Red, 1, Plus): GetMatch gives (Blue, 0, At), whose sums are 1, so no match; the completion is (Yellow, 2, Slash) | the one value whose three attribute sums with the two inputs are multiples of 3, so that the forced last tile completes a match | not executed | MatchUtility.WrittenMatchCounterexample | MatchUtility.Completion |
| MatchJoyUnity/Assets/Scripts/Components/GameBoard.cs:178 | GetMatch is given `tiles[0]` and `tiles[1]`'s committed values from before the call, which this same call hands back to the pool. After a match, the completion of those two is the face of the third matched tile, which is on the board when the snapshot is taken, so even a correct completion never finds its face in the pool | the selected tiles hold (Blue, 0, At), (Red, 1, Plus) and (Yellow, 2, Slash); the completion of the first two is (Yellow, 2, Slash), held by the third tile and not in the snapshot, so the forced branch does not fire | the completion of the first two NEW values, so that the three reset tiles hold a match whenever one is left | not executed | Board.PreCallCompletionNeverLeft | Board.NewValuesForceMatch |
| MatchJoyUnity/Assets/Scripts/Components/Tile.cs:149 | `Select` starts `Delay` after the setter has run the board's handler, which may already have started the sender's `Disappear`; that `Delay` is not stopped, and its `finally` makes the tile ready while the `Disappear` is still in flight | a ready tile completes a match: the handler starts its `Disappear`, then `Select` starts `Delay`; the `Delay` finishes first and the tile can be selected again with its old value still committed | a tile with a `Disappear` in flight stays unready with no `Delay` pending, for example by starting `Delay` before the setter | not executed | Tiles.DelayAfterDisappear | Tiles.DelayBeforeDisappear |
