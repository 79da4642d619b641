# tui-dungeon-raid: cursor, tile mapping and key dispatch

This project models the board-view input layer of the terminal front end of
a tile-matching dungeon game (`src/main.rs`). The layer has three parts:

- **The cursor step rule** (`move_cursor`). It is module `Cursor`. The terminal
  cursor is a pair of unsigned 16-bit cells `(x, y)`. A move is one of Up,
  Right, Down or Left. It moves one axis by `CURSOR_MOVE = 2`, but only when
  that axis's guard passes. The guards come from
  `CURSOR_MAX_UP = CURSOR_MAX_LEFT = 1`,
  `CURSOR_MAX_RIGHT = 2 * width - 1` and `CURSOR_MAX_DOWN = 2 * height - 1`.
  The board dimensions are constants of the game engine. Here they are a
  parameter `Dims`, restricted so that all derived values fit in 16 bits.
  `move_cursor` works on a local copy of the cursor and never writes it
  back. So `Terminal.MoveCursor` leaves the terminal's cursor unchanged, and
  the position it computes (`Step`) is dropped.
- **The cursor-to-tile mapping** (`tile_position_from_cursor_position`). It is
  module `TileMapping`. The tile is `(row, col) = (2*y - 1, 2*x - 1)`,
  computed in 16-bit arithmetic. The model covers the no-overflow case, the
  debug build (overflow panics) and the release build (overflow wraps).
  The key loop below takes the build as a parameter. In a debug build, `x`
  on an unmappable cursor such as `(0, 0)` panics. In a release build it
  selects the wrapped position.
- **The key table and the event loop** (`run_app`). It is module `Dispatch`.
  - `q` quits.
  - Space drops the selection, then applies gravity and refills the board.
  - `x` selects the tile under the cursor.
  - `h`/Left, `j`/Down, `k`/Up and `l`/Right move the cursor.
  - Every other key is ignored.

  The game engine is opaque. Its commands appear only as `EngineCall` tags, in
  the order they are issued. Key events are a parameter.

## Where the code and the intended layout differ

The code is modelled as written. The lemmas below show where it departs from
the board layout its constants suggest:

- The named maxima suggest the cursor stops at `CURSOR_MAX_RIGHT` and
  `CURSOR_MAX_DOWN`. The Right and Down guards compare against the maximum
  plus the step, though, so the step rule can go two steps (four cells)
  further, up to `2W+3` and `2H+3` (`StepOvershootsNamedMaximum`). The Up and Left guards stop at 1.
- The cursor steps over the odd cells `1, 3, ..., 2 * width - 1`: one cell
  per board column, and likewise for rows. That suggests `(x - 1) / 2` as
  the tile column. The code computes `2*x - 1` instead. Its results are
  always odd, so row 0 and column 0 are never selected. The cursor at the
  named maxima maps off the board (`NamedMaximaMapOffBoard`).
- Because `move_cursor` never stores its result, no key ever moves the
  terminal cursor. Every `x` in a run selects the same tile
  (`SessionSelectsStartingTile`). Removing all move keys from a run changes
  nothing (`SessionIgnoresMoves`).

## Model

| member | source | states |
|---|---|---|
| `Cursor.CursorMaxRight` | src/main.rs:81 | the right-hand maximum `2 * width - 1` is odd and fits in 16 bits |
| `Cursor.CursorMaxDown` | src/main.rs:82 | the downward maximum `2 * height - 1` is odd and fits in 16 bits |
| `Cursor.Step` | src/main.rs:85-94 | a move either leaves the cursor where it is or moves it exactly one step of 2 in its own direction, with the other axis untouched. A move that is taken never ends below 1 going up or left, nor past `CURSOR_MAX_RIGHT + 4` / `CURSOR_MAX_DOWN + 4` going right or down. The region `[1, 2W+3] x [1, 2H+3]` is closed under steps. No 16-bit overflow happens |
| `Cursor.StepIsSoftClamp` | src/main.rs:87-92 | the step rule equals a soft clamp: the step is taken exactly when the moved coordinate of the target stays on the inner side of the one-sided limit for that direction (1 for Up and Left, `2W+3` for Right, `2H+3` for Down); otherwise the cursor stays put |
| `Cursor.StepOvershootsNamedMaximum` | src/main.rs:81-90 | moving Right from `CURSOR_MAX_RIGHT + 2` reaches `CURSOR_MAX_RIGHT + 4`, and moving Down from `CURSOR_MAX_DOWN + 2` reaches `CURSOR_MAX_DOWN + 4` |
| `Cursor.Walk` | src/main.rs:85-94 | the position after applying the step rule once per move, in order. Each coordinate moves by at most `2 * |moves|`. This composes computed positions; the terminal cursor itself never moves, because `move_cursor` drops each result |
| `Cursor.WalkPreservesParity` | src/main.rs:79-92 | a property of the step rule, not of the terminal cursor: any sequence of steps keeps the parity of both coordinates |
| `Cursor.WalkStaysInReach` | src/main.rs:80-92 | a property of the step rule, not of the terminal cursor: any sequence of steps from a position in `[1, 2W+3] x [1, 2H+3]` stays in that region |
| `Cursor.Terminal.MoveCursor` | src/main.rs:85-94 | the terminal's cursor is unchanged after the call. The body asserts that the local copy it drops equals `Step` of the cursor |
| `TileMapping.TilePositionFromCursor` | src/main.rs:96-99 | for `1 <= x, y <= 32767` the tile's row comes from `y` and its column from `x`. Both are odd and in `[1, 65533]`, and `CursorFromTilePosition` recovers the cursor from them |
| `TileMapping.TilePositionInjective` | src/main.rs:96-99 | distinct mappable cursors map to distinct tiles |
| `TileMapping.OddTilePositionsAreImages` | src/main.rs:96-99 | every tile with odd row and odd column in `[1, 65533]` is the image of exactly the cursor `CursorFromTilePosition` gives |
| `TileMapping.NamedMaximaMapOffBoard` | src/main.rs:96-99 | the cursor at `(CURSOR_MAX_RIGHT, CURSOR_MAX_DOWN)` maps to a column `>= width` and a row `>= height` |
| `TileMapping.WalkStaysMappable` | src/main.rs:85-99 | a property of the step rule, not of the terminal cursor: when `2W+3` and `2H+3` are at most 32767, no sequence of steps from a position in `[1, 2W+3] x [1, 2H+3]` leads to one the mapping overflows on. It does not rule out the `x` panic, which depends on where the terminal cursor already is |
| `TileMapping.CheckedTilePosition` | src/main.rs:98 | debug build: the checked 16-bit computation (row first, then column) succeeds exactly for `1 <= x, y <= 32767`. When it succeeds it equals `TilePositionFromCursor` |
| `TileMapping.WrappingTilePosition` | src/main.rs:98 | release build: each coordinate is `(2 * v - 1) mod 65536`, so values lie in `[0, 65535]`. It agrees with `TilePositionFromCursor` where that is defined, and a cursor coordinate of 0 wraps to 65535 |
| `Dispatch.CommandOf` | src/main.rs:107-116 | the command the `match key.code` picks for a key. A move command is one of that move's keys, and an ignored key is bound to nothing |
| `Dispatch.DispatchTable` | src/main.rs:107-116 | `q` and only `q` quits. Space and only space drops then refills. `x` and only `x` selects. A move is dispatched exactly for its vi letter or its arrow key. Every unbound key is ignored |
| `Dispatch.MoveKeysDispatchToTheirMove` | src/main.rs:111-114 | each vi letter dispatches to the same move as its arrow key |
| `Dispatch.Resolve` | src/main.rs:108-115 | what one command does in a given build at a given cursor. It stops exactly for quit. It panics only in a debug build and only for `x`. Otherwise it issues at most two engine calls |
| `Dispatch.ResolveEffects` | src/main.rs:108-115 | quit stops the loop. Space issues `DropSelection` then `ApplyGravityAndRandomizeNewTiles`, in that order. `x` panics exactly in a debug build on a cursor the mapping overflows on. Otherwise `x` issues one `SelectTile` of the wrapped mapping, which on mappable cursors is the plain mapping. Moves and ignored keys issue nothing |
| `Dispatch.HandleKey` | src/main.rs:107-116 | handling one key issues exactly the effect `Resolve` gives for its command at the current cursor, and leaves the terminal cursor unchanged, including for moves |
| `Dispatch.Session` | src/main.rs:101-119 | the reference run of the loop on a finite key stream, with the cursor fixed: each key's effect in turn, until the first quit or panic. It issues at most two engine calls per key |
| `Dispatch.RunApp` | src/main.rs:101-119 | the loop over a finite key stream, in either build, issues exactly the engine calls, and ends exactly as, `Session` from the starting cursor. The terminal cursor is unchanged throughout |
| `Dispatch.SessionSelectsStartingTile` | src/main.rs:85-110 | every `SelectTile` a run issues targets the wrapped mapping of the cursor the run started with. In a debug build that cursor is also mappable, so it is the plain mapping |
| `Dispatch.ReleaseSessionNeverPanics` | src/main.rs:98-110 | a release-build run never panics |
| `Dispatch.BuildsAgreeOnMappableCursor` | src/main.rs:98-110 | on a mappable cursor the debug and release builds issue the same calls and end the same way |
| `Dispatch.SessionDropIsFollowedByGravity` | src/main.rs:109 | every `DropSelection` in a run is immediately followed by `ApplyGravityAndRandomizeNewTiles` |
| `Dispatch.SessionEndsAtQuit` | src/main.rs:108 | a run whose key stream contains `q` has returned (or panicked before it) and is not waiting for input. The keys after the first `q` issue nothing: the run equals the run of the keys up to and including that `q` |
| `Dispatch.SessionIgnoresKeysAfterEnd` | src/main.rs:108-110 | once a run has returned or panicked, appending further keys changes neither its engine calls nor its ending |
| `Dispatch.SessionIgnoresMoves` | src/main.rs:111-114 | removing every move key from a key stream leaves the run's engine calls and its ending unchanged |

## Left out

- Terminal setup and teardown (`main`): raw mode, alternate screen, mouse capture, showing the cursor and printing errors. These are terminal I/O.
- Drawing (`terminal.draw`, `ui`) and the board layout. The layout is library rendering, and most of `ui` is commented out. Any effect drawing has on the hardware cursor is not modelled: the model takes the cursor to change only through this code.
- `event::read`: the blocking read of the next event is replaced by a finite key stream. Non-key events are skipped by the code and are not represented. The key event kind (press, repeat, release) is not inspected by the code, and the model has no such field.
- I/O errors from `get_cursor` and from `draw`/`read`, which `run_app` propagates with `?`. They are not modelled.
- The game engine (`Game::default`, `drop_selection`, `apply_gravity_and_randomize_new_tiles`, `select_tile`) and the internals of `TilePosition`. They live in the `dungeon_raid_core` crate, which is not part of this model. They appear only as call tags and a row/column pair.
- `App` and `InputMode` are never used for any behaviour.
- `Dims` stands for `DEFAULT_BOARD_WIDTH` and `DEFAULT_BOARD_HEIGHT`. Their values are not part of this model, so they are a parameter with `width, height >= 1` and `2W+3, 2H+3 <= 65535`. The truncating `as u16` cast of the constants is therefore not exercised.
