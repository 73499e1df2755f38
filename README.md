# Chess GUI controller: a Dafny model

This project models the interactive controller of a small chess program (`kchess.py`): one
event loop that owns the board, the square selection, two mode switches (play against a bot,
move-suggestion assistant), a two-press confirmation gate for the destructive buttons, two
result queues filled by background engine requests, and a one-shot "game over" flag. It also
models the pure function that picks each square's background colour.

The chess rules library is not modelled. The controller sees it through `ChessRules.Rules<P>`,
a record of total functions over an opaque position type `P`. These functions give the side to
move, the piece on a square, the legal moves in generation order, the capture, en passant and
castling tests, `push`, game over, the winner, the starting position and FEN parsing. Every
property below holds for every such record. The engine process is modelled only by its
observable effect. A started request is recorded with a copy of the board. Later it finishes by
putting one move, or nothing, on its channel's queue (`Results.EngineReply`).

Layout:

- `chess_rules.dfy`: squares (rank `s / 8`, file `s % 8`), pieces, moves, the null move and the rules record.
- `game_state.dfy`: the globals as a `State`, the events, clearing the selection, starting a request and the game-over latch.
- `square_color.dfy`: the colour priority.
- `selection.dfy`: the two-click selection state machine with auto-queen promotion.
- `confirm_gate.dfy`: the RESTART / EXIT / bot-mode gate.
- `results.dfy`: engine completion and the draining of the two queues.
- `event_loop.dfy`: one pass of the main loop (`Step`) and a whole session (`Run`).
- `controller.dfy`: `GameController`, the imperative form. Its fields are the globals, with one method per event path. Each method is proved to produce exactly the state and the message that `Step` and its parts describe.
- `properties.dfy`: the lemmas.

The model follows the code in every branch. It models these details of the code:

- A `continue` in the loop skips the queue draining. This happens after a gated button, SKIP, SET-BOARD, ASSISTANT, a click on the selected square, and a click during the bot's turn.
- A click when the game is over falls through to the draining.
- A null move counts as false in the suggestion test.
- When several moves reach one square (the promotion choices), the destination map keeps the last one.
- The second click plays the first legal move to the clicked square.

Some behaviours of the code are easy to miss, and the model keeps them as written:

- A drained bot move is passed to `push` without any legality check (kchess.py:619), so a bot
  move that was computed before a restart is still pushed onto the new game.
- Pushing a drained bot move does not clear the selection. Loading a FEN neither clears the
  suggestion nor asks for a new one. The old suggestion is hidden unless it is legal in the loaded
  position, because the colour rule checks legality on the current board.
- SKIP asks for the next move or suggestion without first checking whether the game is over.

## Model

| member | source | states |
|---|---|---|
| `ChessRules.SquareAt` | kchess.py:551 | The square of a grid click has exactly the clicked rank and file. |
| `GameState.ResetSelection` | kchess.py:88-94 | Clears the origin and the destination map and changes nothing else, so the suggestion survives. |
| `GameState.Dispatch` | kchess.py:591-595 | Starting an engine request appends exactly one request with that channel and a copy of the current board, and changes nothing else. |
| `GameState.Refresh` | kchess.py:210-229 | The latch becomes `old latch or game over`. A message is shown only when the latch goes from false to true, and then it names the winner (the second player is labelled as the bot in bot mode). |
| `GameState.NextRequest` | kchess.py:591-595 | After a ply, the bot is asked exactly when the bot is to play. Otherwise a suggestion is asked exactly when the assistant is on. Otherwise nothing is asked. |
| `SquareColor.SquareColorOf` | kchess.py:96-139 | First-match priority: the origin is always SELECTED. A capturing destination is CAPTURE. A non-capturing en passant or castling destination is SPECIAL. A displayed suggestion's endpoints are SUGGESTED_P1 when White is to move and P2 otherwise. The suggestion is displayed only when the assistant is on, the suggestion is legal now and it is not the bot's turn. Other destinations are VALID_DARK or VALID_LIGHT, and all other squares DARK or LIGHT, by rank+file parity. Each colour is characterised in both directions. |
| `Selection.DestinationMap` | kchess.py:563 | The keys are exactly the destinations of the legal moves from the origin. Each value is the last legal move from the origin to that key. |
| `Selection.FirstMoveBetween` | kchess.py:578 | Returns the first legal move from the origin to the clicked square, or None exactly when there is no such move. |
| `Selection.AutoQueen` | kchess.py:582-584 | Keeps the origin and destination. A pawn reaching rank 0 or 7 gets a queen promotion. Any other move is played unchanged. |
| `Selection.SelectOrigin` | kchess.py:553-567 | A first click selects the square exactly when it holds a piece of the side to move, with that square's destinations. Otherwise nothing changes. |
| `Selection.MoveOrReject` | kchess.py:577-609 | A second click always ends the selection and keeps the suggestion. When no move reaches the square, the board is unchanged. At most one request is added. |
| `Selection.ClickBoard` | kchess.py:553-609 | Any second click ends the selection. A first click leaves the board and requests alone. A click never changes the suggestion, the gate, the latch, the modes or the queues. |
| `ConfirmGate.Disarm` | kchess.py:494-496 | Empties the pending set and changes nothing else. |
| `ConfirmGate.ResetGame` | kchess.py:474-483 | A confirmed RESTART or bot-mode press gives the starting position and a cleared latch. Only the bot-mode press flips bot mode. |
| `ConfirmGate.PressGated` | kchess.py:458-492 | The pending set becomes `{k}` on a first press and empty on a second. The loop stops exactly on a confirmed EXIT. A first press keeps the board and modes. A confirmed RESTART or bot-mode press resets the board, keeps the assistant flag and both queues, and asks for a suggestion exactly when the assistant is on, the starting position is not over and the bot does not open it. |
| `Results.EngineReply` | kchess.py:231-253 | A finished request leaves the outstanding list. It adds its move, if any, to the queue of its own channel only. |
| `Results.DrainMoveQueue` | kchess.py:614-628 | Takes at most one bot move and pushes it unchecked. Clears the suggestion. Asks for a suggestion when the assistant is on and the game goes on. The latch follows the refresh. Nothing else changes. |
| `Results.DrainSuggestionQueue` | kchess.py:630-640 | Takes at most one suggestion. Installs it exactly when it is legal on the current board, and otherwise keeps the old one. |
| `Results.Drain` | kchess.py:614-640 | Draining never touches the selection, the gate or the modes. |
| `EventLoop.SkipTurn` | kchess.py:498-510 | SKIP keeps the gate and never stops the loop. |
| `EventLoop.LoadFen` | kchess.py:512-529 | SET-BOARD keeps the gate and never stops the loop. |
| `EventLoop.SwitchAssistant` | kchess.py:531-542 | ASSISTANT keeps the gate and never stops the loop. |
| `EventLoop.ClickEvent` | kchess.py:544-612 | A click with a selection, when the game goes on and it is not the bot's turn, ends the selection. |
| `EventLoop.Step` | kchess.py:449-640 | One pass stops the loop exactly on a closed window or a confirmed EXIT. |
| `EventLoop.Run` | kchess.py:449-640 | The `while True` loop, with engine completions between passes, run until it stops. The contract fixes only the empty session. `Properties.RunConfirmAtMostOne` and `Properties.RunReportsAtMostOncePerGame` state the session facts. |
| `Controller.GameController.constructor` | kchess.py:56-84 | The globals start with the starting position, nothing selected, no suggestion, both modes off, nothing pending, the latch clear and no requests. |
| `Controller.GameController.ResetSelection` | kchess.py:88-94 | In place: equals `GameState.ResetSelection` of the old state. |
| `Controller.GameController.StartEngine` | kchess.py:593 | In place: equals `GameState.Dispatch` of the old state. |
| `Controller.GameController.UpdateUi` | kchess.py:210-229 | In place: the latch and the message equal `GameState.Refresh`. |
| `Controller.GameController.BoardColors` | kchess.py:153-175 | The grid loop gives every square exactly `SquareColorOf` of the current state. |
| `Controller.GameController.EngineFinishes` | kchess.py:231-253 | In place: equals `Results.EngineReply`. |
| `Controller.GameController.HandleEvent` | kchess.py:449-640 | In place: the new fields, the message shown and the loop exit equal `EventLoop.Step`. |
| `Controller.GameController.PressGatedKey` | kchess.py:458-492 | In place: equals `ConfirmGate.PressGated`. |
| `Controller.GameController.SkipTurn` | kchess.py:498-510 | In place: equals `EventLoop.SkipTurn`. |
| `Controller.GameController.LoadFen` | kchess.py:512-529 | In place: equals `EventLoop.LoadFen`. |
| `Controller.GameController.SwitchAssistant` | kchess.py:531-542 | In place: equals `EventLoop.SwitchAssistant`. |
| `Controller.GameController.ClickSquare` | kchess.py:544-612 | In place: equals `EventLoop.ClickEvent`, including the draining that follows. |
| `Controller.GameController.SelectSquare` | kchess.py:553-567 | In place: equals `Selection.SelectOrigin`. |
| `Controller.GameController.PlayOrReject` | kchess.py:577-609 | In place: equals `Selection.MoveOrReject`, with the promotion set on the found move. |
| `Controller.GameController.DrainQueues` | kchess.py:614-640 | In place: equals `Results.Drain`. |
| `Controller.GameController.TakeBotMove` | kchess.py:614-628 | In place: equals `Results.DrainMoveQueue`. |
| `Controller.GameController.TakeSuggestion` | kchess.py:630-640 | In place: equals `Results.DrainSuggestionQueue`. |
| `Properties.FirstPressOnlyArms` | kchess.py:459-465 | A first press arms only that key and runs nothing. Only the latch may change. |
| `Properties.SecondPressRunsAction` | kchess.py:466-492 | A second press clears the set and runs the action. EXIT stops the loop with nothing else changed. RESTART or bot mode resets the board and selection, keeps the suggestion, flips bot mode only for its own key, re-arms the latch from the new position, keeps the assistant flag and both queues, and adds exactly one suggestion request when the assistant is on, the new game is not over and the bot does not move first, otherwise none. |
| `Properties.DoublePressRunsOnce` | kchess.py:459-483 | Two consecutive presses of RESTART or bot mode: the first leaves the board and modes alone, and the second resets. |
| `Properties.OtherGatedPressRearms` | kchess.py:461-465 | Pressing a different gated key cancels the pending one and arms the new one, without running either. |
| `Properties.UserActionDisarms` | kchess.py:494-496 | Any other user event empties the pending set. It behaves exactly as if nothing had been pending. |
| `Properties.TimeoutKeepsPending` | kchess.py:494-496 | A timeout leaves the pending set alone. The gate has no time limit. |
| `Properties.StepConfirmAtMostOne` | kchess.py:459-496 | One step keeps at most one key pending. |
| `Properties.RunConfirmAtMostOne` | kchess.py:449-640 | Over any session, at most one key is ever pending. |
| `Properties.FirstClickSelectsOwnPiece` | kchess.py:554-563 | A first click on a piece of the side to move selects it. The destination keys are exactly the to-squares of its legal moves, each mapped to such a move. |
| `Properties.FirstClickElsewhereStaysIdle` | kchess.py:554-567 | A first click on an empty square or an opponent piece leaves nothing selected and the map unchanged. |
| `Properties.SecondClickEndsSelection` | kchess.py:570-609 | With a selection, every click (origin, legal or illegal) leaves the selection empty. |
| `Properties.ClickIgnoredWhenGameOver` | kchess.py:545 | When the game is over, a click is the same step as a timeout on the disarmed state. |
| `Properties.ClickIgnoredOnBotTurn` | kchess.py:547-548 | On the bot's turn, a click only disarms the gate. The queues are not drained. |
| `Properties.DestinationIffMove` | kchess.py:563-581 | A second click finds a move exactly when the square is a key of the destination map built from the same moves. |
| `Properties.HumanMovePlayed` | kchess.py:577-595 | A successful second click pushes the first legal move to the square, as a queen for a pawn reaching rank 0 or 7. It clears the selection and keeps the suggestion. It asks the bot when the game goes on and the bot is to play, otherwise asks for a suggestion when the assistant is on, otherwise nothing. |
| `Properties.InvalidSecondClick` | kchess.py:597-609 | A second click that no legal move reaches only clears the selection. |
| `Properties.SkipPassesTurn` | kchess.py:498-510 | SKIP pushes the null move, clears the selection, keeps the suggestion, both modes and both queues, and asks the bot or the assistant, without a game-over check. |
| `Properties.LoadFenOutcome` | kchess.py:512-529 | A FEN that parses replaces the board, clears the selection and the latch, keeps the suggestion, both modes and both queues, and asks the bot when it is to play and the game goes on. A cancelled or invalid FEN changes nothing but the gate. |
| `Properties.AssistantSwitched` | kchess.py:531-542 | ASSISTANT flips the assistant. It asks for a suggestion when it turns on in a position it may advise on. Otherwise it forgets the suggestion. The board, bot mode, the selection and both queues are kept. |
| `Properties.BotModeChangesOnlyOnToggle` | kchess.py:480-483 | Bot mode flips on a confirmed bot-mode press and on no other event. |
| `Properties.AssistantChangesOnlyOnSwitch` | kchess.py:532-534 | The assistant flips on ASSISTANT and on no other event. |
| `Properties.BotMoveDrainedBeforeSuggestion` | kchess.py:614-640 | With both queues non-empty, the bot move is pushed first. The suggestion is installed only if it is legal after that move, and is otherwise cleared. |
| `Properties.RefreshKeepsLatch` | kchess.py:210-213 | A refresh keeps "a message implies the flag" and "a message exactly when the flag rises". |
| `Properties.DrainKeepsLatch` | kchess.py:614-640 | Draining keeps the same two facts about the latch. |
| `Properties.StepLatch` | kchess.py:210-229 | In every step a message implies the flag. Outside a confirmed RESTART, a confirmed bot-mode press or a loaded FEN, the flag never falls, and a message is shown exactly when it rises. |
| `Properties.RunReportsAtMostOncePerGame` | kchess.py:210-229 | Over any session, messages shown plus "flag still clear" is at most resets plus "flag clear at the start". So the result is shown at most once per game. |
| `Properties.NoReportAfterLatchWithoutReset` | kchess.py:211-213 | With the flag set and no reset, a session shows no further message. |

## Left out

- Engine provisioning (`get_engine_url`, `ensure_engine`): it is platform detection, download and archive extraction, all I/O.
- The engine process (`engine_thread_func`): only its effect is modelled. A request ends with one move or with nothing (any failure), and which move comes back is an input. The copy of a board with null moves through FEN is not modelled.
- Threads and the blocking queues: each pass of the loop is one sequential step. An engine completion is a separate input between passes, and a request can finish only once.
- The chess rules (legality, `push`, `set_fen`, game over, outcome): these are the abstract `Rules<P>` record. Nothing assumes they are consistent. For example, `ChessRules.IsPawnAt` treats a missing piece on the origin as "not a pawn", where Python would raise.
- Widget updates, labels, button texts and colours, the turn indicators, the red flash and its `time.sleep`, the "wrong turn" and "invalid move" messages, and the invalid-FEN dialog: these are rendering only, and none of them changes state. The button states are not modelled either. The SKIP button is disabled for as long as bot mode is on (kchess.py:205-207), so no SKIP reaches the loop while bot mode is on. `Step` and `SkipPassesTurn` still accept one, including its bot-move branch, which allows more inputs than the program can receive.
- The refresh that `main` runs once before the loop (kchess.py:446): a caller performs it by calling `GameController.UpdateUi` after construction.
- `Rules.push` is total. The rules library's `push` raises when no piece stands on the origin square. A stale bot move pushed after a restart can hit this case. The `try` around the queue read catches only an empty queue (kchess.py:615), so the exception would end `main`. That path is not modelled. `EventLoop.Step`'s "stops exactly on a closed window or a confirmed EXIT" holds only for a `push` that returns.
- An invariant that the destinations of a selection stay legal on the current board: the code breaks it when a stale bot move is pushed during a human selection, so it is not stated.
