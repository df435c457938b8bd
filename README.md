# Snake game step engine, in Dafny

This project models the game logic of a React Snake game that exists in two versions:

- **The React Native screen** (`react-snake-game/src/App.js`, module `NativeSnake`). The board is 15 x 15 (`GRID_SIZE`). Cells are `{x, y}`, the head is at index 0, the direction is one of `"UP"`, `"DOWN"`, `"LEFT"` and `"RIGHT"`, and there is no score.
- **The web page** (`react-snake-game/src/App.jsx`, module `WebSnake`). The board is 20 x 20 (`BOARD_SIZE`). Cells are `[x, y]`, the head is the last element, the direction is a unit vector `[dx, dy]`, and there is a score.

Each module has the same layers:

- A value `State` holding everything one tick reads or writes, plus a pure function for each operation:
  - `Moved` / `Advanced`: the tick (`moveSnake`);
  - `Turned` / `Steered`: the direction guard (`changeDirection` / `handleKey`);
  - `Initial`: the start and restart values.
- A `class Game` whose fields are the component's state variables. Its methods (`Step` or `MoveSnake`/`Tick`, `ChangeDirection` or `HandleKey`, `Reset`) update the fields step by step, as the setters do. Each method is proved to produce exactly the state the matching pure function gives.
- An `Event` type (tick, key or button press, restart) and a `Run` function that replays a sequence of events. Properties of every reachable state are stated over `Run`.

Module `Sequences` (`sequences.dfy`) defines `Distinct`, meaning "no cell twice", which both versions use.

What is proved, in brief:

- A tick changes nothing once the game is over:
  - on the native screen, `moveSnake` checks the flag itself;
  - on the web page, no interval is scheduled.
- The tick's candidate head is one cell from the old head in the current direction.
- The game ends when the candidate head is off the board, or lands on any current segment, tail included. When that happens the body, the food and the score stay as they were.
- When the snake eats, the body grows by exactly one and keeps every old segment, the food moves to the cell passed in, and (on the web page) the score goes up by one.
- Otherwise the length and the score stay the same, and only the old tail is dropped.
- In every reachable state:
  - every segment is on the board;
  - no cell is covered twice;
  - the food is on the board;
  - on the web page, the direction is a unit vector and the score equals the length minus one.
- The direction guard rejects exactly the reversal of the current direction. On the web page this holds for every unit direction, although the guard only tests one coordinate.
- One accepted turn between two ticks never steers the head onto the segment right behind it.
- Two turns between ticks can: UP then LEFT while moving RIGHT reverses the snake onto its neck, and the next tick ends the game (`TwoTurnsReachNeck`, `TwoKeysReachNeck`). This happens because both guards compare with the current direction, which the first accepted press has already changed.

Where this game's code differs from a common description of Snake, the model follows the code:

- The self-collision test uses the whole pre-move body. Moving into the cell the tail is about to leave ends the game.
- The new food cell is any cell on the board. It may lie on the snake.
- A press changes the direction at once. There is no pending direction that waits for the next tick.
- The native screen keeps no score.
- On the native screen, `changeDirection` itself has no game-over guard, but its buttons are shown only while the game runs; while it is over only Restart is shown (App.js lines 106-121).
- On the web page, the keydown listener is always active, so keys change the direction even while the game is over (App.jsx lines 19-37). Restart is offered only in the game-over overlay.

## Model

| member | source | states |
|---|---|---|
| NativeSnake.Shifted | react-snake-game/src/App.js:24-31 | the moved head is one of the four cells next to the old head; it stays in the same column exactly for UP and DOWN |
| NativeSnake.ShiftedReverse | react-snake-game/src/App.js:24-31 | a step in the opposite direction returns to the starting cell |
| NativeSnake.ShiftedInjective | react-snake-game/src/App.js:24-31 | different directions lead from one cell to different cells |
| NativeSnake.Initial | react-snake-game/src/App.js:10-13 | the start state `[(5,5)]`, apple (10,10), RIGHT, not over, is sound |
| NativeSnake.Moved | react-snake-game/src/App.js:21-59 | after game over nothing changes; the game ends exactly when the candidate head is off the grid or on any segment, and then body and apple are unchanged; otherwise the head is the candidate and the rest is a prefix of the old body, one longer with the apple moved to the spawn cell when the head reaches the apple, the same length with the apple kept when it does not |
| NativeSnake.MovedKeepsSound | react-snake-game/src/App.js:34-58 | a tick with an in-grid spawn cell keeps every segment in the grid, keeps the body free of repeated cells and keeps the apple in the grid |
| NativeSnake.Turned | react-snake-game/src/App.js:61-69 | the requested direction is taken unless it is the reverse of the current one, in which case the current one stays |
| NativeSnake.TurnSparesNeck | react-snake-game/src/App.js:61-69 | after a tick that does not end the game, one press never points the next head at the segment behind the head |
| NativeSnake.TwoTurnsReachNeck | react-snake-game/src/App.js:61-69 | from a sound two-segment snake moving RIGHT, pressing UP then LEFT reverses the direction and the next tick ends the game |
| NativeSnake.Apply | react-snake-game/src/App.js:16-76 | each event (tick, button press, restart) keeps the body non-empty |
| NativeSnake.Run | react-snake-game/src/App.js:16-76 | any run of events keeps the body non-empty |
| NativeSnake.RunKeepsSound | react-snake-game/src/App.js:16-76 | a run whose ticks spawn the apple in the grid keeps a sound state sound |
| NativeSnake.ReachableSound | react-snake-game/src/App.js:10-76 | every state reachable from the start has all segments in the grid, no cell twice and the apple in the grid |
| NativeSnake.GameOverFreezes | react-snake-game/src/App.js:21-22 | once over, ticks and presses never change the body, the apple or the game-over flag until Restart |
| NativeSnake.Game.constructor | react-snake-game/src/App.js:10-13 | the fields start at the initial state |
| NativeSnake.Game.Step | react-snake-game/src/App.js:21-59 | the in-place tick leaves the fields equal to `Moved` of the old fields, and keeps a sound state sound |
| NativeSnake.Game.ChangeDirection | react-snake-game/src/App.js:61-69 | only the direction changes, to `Turned` of the old direction and the request |
| NativeSnake.Game.Reset | react-snake-game/src/App.js:71-76 | the fields return to the initial state |
| WebSnake.Initial | react-snake-game/src/App.jsx:7-11 | the start state `[[8,8]]`, food [10,10], direction [1,0], score 0, not over, is sound |
| WebSnake.Advanced | react-snake-game/src/App.jsx:45-83 | if the candidate head (last cell plus direction) is off the board or on any segment, only the game-over flag is set; otherwise the new last cell is the candidate and the rest is a suffix of the old body, one longer with score plus one and food at the spawn cell when the head reaches the food, the same length with score and food unchanged when it does not |
| WebSnake.AdvancedKeepsSound | react-snake-game/src/App.jsx:51-82 | a move with an on-board spawn cell keeps the cells on the board and distinct, the food on the board, the direction a unit vector and the score equal to the length minus one |
| WebSnake.HitsBody | react-snake-game/src/App.jsx:62-67 | the loop over the whole body reports a hit exactly when the candidate head is one of its segments |
| WebSnake.Steered | react-snake-game/src/App.jsx:19-34 | for a unit direction an arrow key takes its own vector unless that vector is the negation of the current one; other keys change nothing |
| WebSnake.SteeredAvoidsNeck | react-snake-game/src/App.jsx:19-34 | one step forward and one step in the steered direction never lead back to the starting cell |
| WebSnake.NeckIsOldHead | react-snake-game/src/App.jsx:69-82 | after a move that does not end the game, the old head is the second-to-last segment and the new head is one step past it |
| WebSnake.KeySparesNeck | react-snake-game/src/App.jsx:19-34 | after such a move, one key never points the next head at the segment behind the head |
| WebSnake.TwoKeysReachNeck | react-snake-game/src/App.jsx:19-34 | from a sound two-segment snake moving right, ArrowUp then ArrowLeft reverses the direction and the next tick ends the game |
| WebSnake.Apply | react-snake-game/src/App.jsx:19-91 | each event (tick, keydown, restart) keeps the body non-empty |
| WebSnake.Run | react-snake-game/src/App.jsx:19-91 | any run of events keeps the body non-empty |
| WebSnake.RunKeepsSound | react-snake-game/src/App.jsx:19-91 | a run whose ticks spawn the food on the board keeps a sound state sound |
| WebSnake.ReachableSound | react-snake-game/src/App.jsx:7-91 | every state reachable from the start is sound; in particular the score always equals the length minus one |
| WebSnake.GameOverFreezes | react-snake-game/src/App.jsx:39-43 | once over, ticks and keys never change the body, the food, the score or the game-over flag until Restart |
| WebSnake.Game.constructor | react-snake-game/src/App.jsx:7-11 | the fields start at the initial state |
| WebSnake.Game.MoveSnake | react-snake-game/src/App.jsx:45-83 | the in-place move (copy, wall test, body loop, push, shift) leaves the fields equal to `Advanced` of the old fields, and keeps a sound state sound |
| WebSnake.Game.Tick | react-snake-game/src/App.jsx:39-43 | a tick moves the snake only while the game is not over |
| WebSnake.Game.HandleKey | react-snake-game/src/App.jsx:19-34 | only the direction changes, to `Steered` of the old direction and the key |
| WebSnake.Game.Reset | react-snake-game/src/App.jsx:85-91 | the fields return to the initial state |

## Left out

- Rendering, styles and board layout in both files are not modelled: they only present the state. The touch buttons (`components/Controls.js`) and the cell class names (`components/Grid.js`) are not part of this model for the same reason.
- `Math.floor(Math.random() * N)` is not modelled as randomness. The tick takes the chosen cell as a parameter that must lie on the board. Nothing is promised about where it lies relative to the snake, because the code does not avoid the snake.
- Timers (`setInterval`, `clearInterval`, `useEffect`), `useRef` and key-listener registration are not modelled. A tick is a call to `Step` or `Tick`, and a press is a call to `ChangeDirection` or `HandleKey`.
- React's asynchronous state batching is not modelled. Each handler's setters form one atomic update. In particular, `moveRef.current` on the web page is taken to equal the current direction when a key arrives.
- `Dimensions.get` and the pixel size of the native board (App.js lines 6-7) are not modelled: they are platform concerns.
- `Run` (in both modules) allows event orders the screens do not offer: a direction press while the game is over on the native screen, and Restart while the game runs on either screen. The reachable-state invariants are proved for this larger set of runs, so they hold for the runs the screens allow.
- JavaScript numbers are taken as unbounded integers. Every coordinate the game produces stays small.
