/** The key handling of `run_app`: which key does what, which engine
    commands each key issues, and the loop that handles a stream of key
    events.

    The engine (`Game`) is outside this model: its commands appear only as
    `EngineCall` tags, in the order they are issued.  Drawing the screen
    and reading events are outside it too: the events are a parameter. */
module Dispatch {
  import opened Cursor
  import opened TileMapping

  /** The key codes the loop distinguishes; `Other` stands for every other
      key the terminal can report. */
  datatype KeyCode = Char(c: char) | Left | Right | Up | Down | Other

  /** What a key asks for. */
  datatype Command = Quit | DropAndRefill | SelectAtCursor | Move(m: CursorMove) | Ignore

  /** The keys bound to a cursor move: the vi letter and the arrow key. */
  predicate IsMoveKey(k: KeyCode, m: CursorMove) {
    match m
    case Left => k == Char('h') || k == KeyCode.Left
    case Down => k == Char('j') || k == KeyCode.Down
    case Up => k == Char('k') || k == KeyCode.Up
    case Right => k == Char('l') || k == KeyCode.Right
  }

  /** Every key the loop reacts to. */
  predicate IsBound(k: KeyCode) {
    || k == Char('q') || k == Char(' ') || k == Char('x')
    || IsMoveKey(k, CursorMove.Left) || IsMoveKey(k, CursorMove.Down)
    || IsMoveKey(k, CursorMove.Up) || IsMoveKey(k, CursorMove.Right)
  }

  /** The key table of the loop: the command each key code asks for. */
  function CommandOf(k: KeyCode): (c: Command)
    ensures c.Move? ==> IsMoveKey(k, c.m)
    ensures c == Ignore ==> !IsBound(k)
  {
    match k
    case Char('q') => Quit
    case Char(' ') => DropAndRefill
    case Char('x') => SelectAtCursor
    case Char('h') => Move(CursorMove.Left)
    case Left => Move(CursorMove.Left)
    case Char('j') => Move(CursorMove.Down)
    case Down => Move(CursorMove.Down)
    case Char('k') => Move(CursorMove.Up)
    case Up => Move(CursorMove.Up)
    case Char('l') => Move(CursorMove.Right)
    case Right => Move(CursorMove.Right)
    case _ => Ignore
  }

  /** Each command comes from exactly the keys bound to it, and every key
      bound to nothing is ignored. */
  lemma DispatchTable(k: KeyCode)
    ensures CommandOf(k) == Quit <==> k == Char('q')
    ensures CommandOf(k) == DropAndRefill <==> k == Char(' ')
    ensures CommandOf(k) == SelectAtCursor <==> k == Char('x')
    ensures CommandOf(k).Move? ==> IsMoveKey(k, CommandOf(k).m)
    ensures forall m :: IsMoveKey(k, m) ==> CommandOf(k) == Move(m)
    ensures CommandOf(k) == Ignore <==> !IsBound(k)
  {
  }

  /** Each vi letter does what its arrow key does, and every key bound to a
      move dispatches to that move. */
  lemma MoveKeysDispatchToTheirMove(k: KeyCode, m: CursorMove)
    ensures IsMoveKey(k, m) ==> CommandOf(k) == Move(m)
    ensures CommandOf(Char('h')) == CommandOf(KeyCode.Left)
    ensures CommandOf(Char('j')) == CommandOf(KeyCode.Down)
    ensures CommandOf(Char('k')) == CommandOf(KeyCode.Up)
    ensures CommandOf(Char('l')) == CommandOf(KeyCode.Right)
  {
  }

  /** The engine commands the loop issues. */
  datatype EngineCall = DropSelection | ApplyGravityAndRandomizeNewTiles | SelectTile(t: TilePosition)

  /** How the program was compiled: a debug build panics on 16-bit
      overflow, a release build wraps. */
  datatype Build = Debug | Release

  /** What handling one command does: leave the loop, panic (debug build,
      overflow in the tile mapping), or issue engine calls and go on. */
  datatype Effect = Stop | Panic | Calls(calls: seq<EngineCall>)

  /** The effect of a command when the terminal cursor is at `cursor`.
      `x` maps the cursor with the build's arithmetic.  A move issues no
      engine call and, since `move_cursor` drops the position it computes,
      has no effect at all.  No command issues more than two calls. */
  function Resolve(b: Build, c: Command, cursor: Pos): (e: Effect)
    ensures e == Stop <==> c == Quit
    ensures e == Panic ==> b == Debug && c == SelectAtCursor
    ensures e.Calls? ==> |e.calls| <= 2
  {
    match c
    case Quit => Stop
    case DropAndRefill => Calls([DropSelection, ApplyGravityAndRandomizeNewTiles])
    case SelectAtCursor =>
      (match b
       case Debug =>
         (match CheckedTilePosition(cursor)
          case Overflow => Panic
          case Ok(t) => Calls([SelectTile(t)]))
       case Release => Calls([SelectTile(WrappingTilePosition(cursor))]))
    case Move(_) => Calls([])
    case Ignore => Calls([])
  }

  /** Quit stops the loop; space issues the drop and then the refill; `x`
      panics exactly in a debug build on a cursor the mapping overflows on,
      and otherwise selects the wrapped mapping of the cursor, which is the
      plain mapping on mappable cursors; moves and ignored keys issue
      nothing. */
  lemma ResolveEffects(b: Build, c: Command, cursor: Pos)
    ensures Resolve(b, c, cursor) == Stop <==> c == Quit
    ensures Resolve(b, c, cursor) == Panic <==> b == Debug && c == SelectAtCursor && !Mappable(cursor)
    ensures c == DropAndRefill ==> Resolve(b, c, cursor) == Calls([DropSelection, ApplyGravityAndRandomizeNewTiles])
    ensures c == SelectAtCursor && (b == Release || Mappable(cursor)) ==>
      Resolve(b, c, cursor) == Calls([SelectTile(WrappingTilePosition(cursor))])
    ensures c == SelectAtCursor && Mappable(cursor) ==>
      Resolve(b, c, cursor) == Calls([SelectTile(TilePositionFromCursor(cursor))])
    ensures c.Move? || c == Ignore ==> Resolve(b, c, cursor) == Calls([])
  {
  }

  /** How a run of the loop ends: `q` returned, the tile mapping panicked,
      or the loop is still waiting for the next event. */
  datatype End = Returned | Panicked | Waiting

  /** The engine calls of a run, in order, and how it ended. */
  datatype Trace = Trace(calls: seq<EngineCall>, end: End)

  function Prepend(calls: seq<EngineCall>, tr: Trace): Trace {
    Trace(calls + tr.calls, tr.end)
  }

  /** Reference semantics of the loop on a finite stream of key events,
      with the terminal cursor at `cursor` throughout: each key's effect in
      turn, up to the first that stops or panics.  A run issues at most two
      engine calls per key. */
  function Session(b: Build, cursor: Pos, keys: seq<KeyCode>): (r: Trace)
    ensures |r.calls| <= 2 * |keys|
    decreases |keys|
  {
    if keys == [] then Trace([], Waiting)
    else
      match Resolve(b, CommandOf(keys[0]), cursor)
      case Stop => Trace([], Returned)
      case Panic => Trace([], Panicked)
      case Calls(cs) => Prepend(cs, Session(b, cursor, keys[1..]))
  }

  /** One key of a session: the trace from key `i` on is the effect of key
      `i` followed by the trace from key `i + 1` on. */
  lemma SessionUnfold(b: Build, cursor: Pos, keys: seq<KeyCode>, i: int)
    requires 0 <= i < |keys|
    ensures Session(b, cursor, keys[i..]) ==
      match Resolve(b, CommandOf(keys[i]), cursor)
      case Stop => Trace([], Returned)
      case Panic => Trace([], Panicked)
      case Calls(cs) => Prepend(cs, Session(b, cursor, keys[i + 1..]))
  {
    assert keys[i..][0] == keys[i] && keys[i..][1..] == keys[i + 1..];
  }

  lemma PrependPrepend(a: seq<EngineCall>, b: seq<EngineCall>, tr: Trace)
    ensures Prepend(a, Prepend(b, tr)) == Prepend(a + b, tr)
  {
    assert a + (b + tr.calls) == (a + b) + tr.calls;
  }

  /** One arm of the `match key.code` in `run_app`: what handling key `k`
      does, with the terminal cursor unchanged. */
  method HandleKey(t: Terminal, d: Dims, b: Build, k: KeyCode) returns (e: Effect)
    requires ValidDims(d)
    modifies t
    ensures t.cursor == old(t.cursor)
    ensures e == Resolve(b, CommandOf(k), old(t.cursor))
  {
    match CommandOf(k) {
      case Quit =>
        e := Stop;
      case DropAndRefill =>
        e := Calls([DropSelection, ApplyGravityAndRandomizeNewTiles]);
      case SelectAtCursor =>
        var cursor := t.cursor;
        match b {
          case Debug =>
            match CheckedTilePosition(cursor) {
              case Overflow =>
                e := Panic;
              case Ok(tile) =>
                e := Calls([SelectTile(tile)]);
            }
          case Release =>
            e := Calls([SelectTile(WrappingTilePosition(cursor))]);
        }
      case Move(m) =>
        t.MoveCursor(d, m);
        e := Calls([]);
      case Ignore =>
        e := Calls([]);
    }
  }

  /** `run_app` on a finite stream of key events: handles each key in turn,
      returning at `q` and, in a debug build, panicking where the tile
      mapping overflows.  The terminal cursor is never changed, and the
      engine calls and the ending are those of `Session` from the cursor at
      the start. */
  method RunApp(t: Terminal, d: Dims, b: Build, keys: seq<KeyCode>) returns (calls: seq<EngineCall>, end: End)
    requires ValidDims(d)
    modifies t
    ensures t.cursor == old(t.cursor)
    ensures Trace(calls, end) == Session(b, old(t.cursor), keys)
  {
    ghost var start := t.cursor;
    calls := [];
    var i := 0;
    while i < |keys|
      invariant 0 <= i <= |keys|
      invariant t.cursor == start
      invariant Session(b, start, keys) == Prepend(calls, Session(b, start, keys[i..]))
    {
      SessionUnfold(b, start, keys, i);
      var e := HandleKey(t, d, b, keys[i]);
      match e {
        case Stop =>
          end := Returned;
          return;
        case Panic =>
          end := Panicked;
          return;
        case Calls(cs) =>
          PrependPrepend(calls, cs, Session(b, start, keys[i + 1..]));
          calls := calls + cs;
      }
      i := i + 1;
    }
    end := Waiting;
    assert keys[i..] == [];
    assert calls + [] == calls;
  }

  /** Because moves never reach the terminal, every tile a run selects is
      the (wrapped) mapping of the cursor it started with, whatever was
      typed; in a debug build that cursor is moreover mappable. */
  lemma {:induction false} SessionSelectsStartingTile(b: Build, cursor: Pos, keys: seq<KeyCode>)
    ensures forall i :: 0 <= i < |Session(b, cursor, keys).calls| && Session(b, cursor, keys).calls[i].SelectTile? ==>
      (b == Debug ==> Mappable(cursor)) && Session(b, cursor, keys).calls[i].t == WrappingTilePosition(cursor)
    decreases |keys|
  {
    if keys != [] {
      SessionSelectsStartingTile(b, cursor, keys[1..]);
    }
  }

  /** A release build never panics: its runs end only at `q` or by waiting. */
  lemma {:induction false} ReleaseSessionNeverPanics(cursor: Pos, keys: seq<KeyCode>)
    ensures Session(Release, cursor, keys).end != Panicked
    decreases |keys|
  {
    if keys != [] {
      ReleaseSessionNeverPanics(cursor, keys[1..]);
    }
  }

  /** On a mappable cursor the two builds run identically. */
  lemma {:induction false} BuildsAgreeOnMappableCursor(cursor: Pos, keys: seq<KeyCode>)
    requires Mappable(cursor)
    ensures Session(Debug, cursor, keys) == Session(Release, cursor, keys)
    decreases |keys|
  {
    if keys != [] {
      BuildsAgreeOnMappableCursor(cursor, keys[1..]);
    }
  }

  /** A selection is dropped only together with the gravity-and-refill that
      follows it at once. */
  lemma {:induction false} SessionDropIsFollowedByGravity(b: Build, cursor: Pos, keys: seq<KeyCode>)
    ensures forall i :: 0 <= i < |Session(b, cursor, keys).calls| && Session(b, cursor, keys).calls[i] == DropSelection ==>
      i + 1 < |Session(b, cursor, keys).calls| && Session(b, cursor, keys).calls[i + 1] == ApplyGravityAndRandomizeNewTiles
    decreases |keys|
  {
    if keys != [] {
      SessionDropIsFollowedByGravity(b, cursor, keys[1..]);
    }
  }

  /** A run that reaches a `q` has ended by then: it does not wait for
      further input, and the keys after the `q` issue nothing, since the
      run is that of the keys up to and including it. */
  lemma {:induction false} SessionEndsAtQuit(b: Build, cursor: Pos, keys: seq<KeyCode>, j: int)
    requires 0 <= j < |keys| && keys[j] == Char('q')
    ensures Session(b, cursor, keys).end != Waiting
    ensures Session(b, cursor, keys) == Session(b, cursor, keys[..j + 1])
    decreases |keys|
  {
    if j == 0 {
      assert keys[..1][0] == keys[0];
    } else {
      SessionEndsAtQuit(b, cursor, keys[1..], j - 1);
      assert keys[1..][..j] == keys[..j + 1][1..];
      assert keys[..j + 1][0] == keys[0];
    }
  }

  /** Once a run has ended, further keys change nothing: the loop has
      returned or panicked and reads no more events. */
  lemma {:induction false} SessionIgnoresKeysAfterEnd(b: Build, cursor: Pos, keys: seq<KeyCode>, more: seq<KeyCode>)
    requires Session(b, cursor, keys).end != Waiting
    ensures Session(b, cursor, keys + more) == Session(b, cursor, keys)
    decreases |keys|
  {
    assert keys != [];
    assert (keys + more)[0] == keys[0] && (keys + more)[1..] == keys[1..] + more;
    if Resolve(b, CommandOf(keys[0]), cursor).Calls? {
      SessionIgnoresKeysAfterEnd(b, cursor, keys[1..], more);
    }
  }

  /** The keys with every move key removed. */
  function WithoutMoves(keys: seq<KeyCode>): seq<KeyCode>
    decreases |keys|
  {
    if keys == [] then []
    else if CommandOf(keys[0]).Move? then WithoutMoves(keys[1..])
    else [keys[0]] + WithoutMoves(keys[1..])
  }

  /** Move keys have no observable effect: a run with them removed issues
      the same engine calls and ends the same way. */
  lemma {:induction false} SessionIgnoresMoves(b: Build, cursor: Pos, keys: seq<KeyCode>)
    ensures Session(b, cursor, WithoutMoves(keys)) == Session(b, cursor, keys)
    decreases |keys|
  {
    if keys != [] {
      SessionIgnoresMoves(b, cursor, keys[1..]);
      if !CommandOf(keys[0]).Move? {
        var w := [keys[0]] + WithoutMoves(keys[1..]);
        assert w[0] == keys[0] && w[1..] == WithoutMoves(keys[1..]);
      }
    }
  }
}
