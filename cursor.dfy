/** The terminal cursor of the board view and the step rule that the
    direction keys apply to it.

    A cursor position is a pair of unsigned 16-bit terminal cells
    (column, row).  The board dimensions are constants of the game engine;
    here they are a parameter `Dims`, restricted so that every constant the
    step rule derives from them fits in 16 bits. */
module Cursor {

  /** An unsigned 16-bit integer. */
  type U16 = x: int | 0 <= x <= 0xFFFF

  /** A terminal cursor position: `x` is the column, `y` the row. */
  datatype Pos = Pos(x: U16, y: U16)

  /** The four cursor movements. */
  datatype CursorMove = Up | Right | Down | Left

  /** Width and height of the board, in tiles. */
  datatype Dims = Dims(width: int, height: int)

  /** Board dimensions for which `CursorMaxRight + CURSOR_MOVE` and
      `CursorMaxDown + CURSOR_MOVE`, and the positions one step beyond them,
      are representable in 16 bits. */
  predicate ValidDims(d: Dims) {
    && 1 <= d.width && 2 * d.width + 3 <= 0xFFFF
    && 1 <= d.height && 2 * d.height + 3 <= 0xFFFF
  }

  const CURSOR_MOVE: U16 := 2
  const CURSOR_MAX_UP: U16 := 1
  const CURSOR_MAX_LEFT: U16 := 1

  function CursorMaxRight(d: Dims): (r: U16)
    requires ValidDims(d)
    ensures r % 2 == 1
  {
    d.width * 2 - 1
  }

  function CursorMaxDown(d: Dims): (r: U16)
    requires ValidDims(d)
    ensures r % 2 == 1
  {
    d.height * 2 - 1
  }

  /** The unit direction of a move: -1, 0 or 1 along each axis, with the
      row axis growing downwards. */
  function DeltaX(m: CursorMove): int {
    match m
    case Left => -1
    case Right => 1
    case _ => 0
  }

  function DeltaY(m: CursorMove): int {
    match m
    case Up => -1
    case Down => 1
    case _ => 0
  }

  /** The position a move would lead to if it were always taken, in
      unbounded integers. */
  function Target(p: Pos, m: CursorMove): (int, int) {
    (p.x + CURSOR_MOVE * DeltaX(m), p.y + CURSOR_MOVE * DeltaY(m))
  }

  /** The one-sided limit the code enforces in the direction of a move:
      the moved coordinate must stay at or above 1 going up or left, and at
      or below two steps (four cells) past the named maximum going right
      or down. */
  function Limit(d: Dims, m: CursorMove): int
    requires ValidDims(d)
  {
    match m
    case Up => CURSOR_MAX_UP
    case Left => CURSOR_MAX_LEFT
    case Right => CursorMaxRight(d) + 2 * CURSOR_MOVE
    case Down => CursorMaxDown(d) + 2 * CURSOR_MOVE
  }

  /** Reference definition of a "soft clamp": take the move when the moved
      coordinate of the target does not pass the limit in the direction of
      the move, otherwise stay put. */
  function SoftClamp(d: Dims, p: Pos, m: CursorMove): Pos
    requires ValidDims(d)
  {
    var (tx, ty) := Target(p, m);
    var ok := match m
      case Up => ty >= Limit(d, m)
      case Left => tx >= Limit(d, m)
      case Right => tx <= Limit(d, m)
      case Down => ty <= Limit(d, m);
    if ok && 0 <= tx <= 0xFFFF && 0 <= ty <= 0xFFFF then Pos(tx, ty) else p
  }

  /** The region `[1, 2W+3] x [1, 2H+3]`: both coordinates at least 1 and at
      most two steps (four cells) past the named maxima.  It is closed
      under the step rule (see `Step`); the step rule never leaves it once
      inside, though not every cell of it is reached from a given start. */
  predicate InReach(d: Dims, p: Pos)
    requires ValidDims(d)
  {
    && 1 <= p.x <= CursorMaxRight(d) + 2 * CURSOR_MOVE
    && 1 <= p.y <= CursorMaxDown(d) + 2 * CURSOR_MOVE
  }

  /** The step rule of `move_cursor`: the position it computes for move `m`
      from `p`.  Each guard is the code's own comparison in 16-bit
      arithmetic; none of them, nor the update it guards, can overflow. */
  function Step(d: Dims, p: Pos, m: CursorMove): (r: Pos)
    requires ValidDims(d)
    // the cursor either stays put or moves exactly one step in direction m
    ensures r == p || (r.x == p.x + CURSOR_MOVE * DeltaX(m) && r.y == p.y + CURSOR_MOVE * DeltaY(m))
    // a move that is taken never passes the limit in its own direction
    ensures r != p && m == Up ==> r.y >= CURSOR_MAX_UP
    ensures r != p && m == Left ==> r.x >= CURSOR_MAX_LEFT
    ensures r != p && m == Right ==> r.x <= CursorMaxRight(d) + 2 * CURSOR_MOVE
    ensures r != p && m == Down ==> r.y <= CursorMaxDown(d) + 2 * CURSOR_MOVE
    // the reachable region is closed under steps
    ensures InReach(d, p) ==> InReach(d, r)
  {
    match m
    case Up =>
      if p.y >= CURSOR_MAX_UP + CURSOR_MOVE then p.(y := p.y - CURSOR_MOVE) else p
    case Right =>
      if p.x <= CursorMaxRight(d) + CURSOR_MOVE then p.(x := p.x + CURSOR_MOVE) else p
    case Down =>
      if p.y <= CursorMaxDown(d) + CURSOR_MOVE then p.(y := p.y + CURSOR_MOVE) else p
    case Left =>
      if p.x >= CURSOR_MAX_LEFT + CURSOR_MOVE then p.(x := p.x - CURSOR_MOVE) else p
  }

  /** The step rule is exactly the soft clamp against the one-sided limits. */
  lemma StepIsSoftClamp(d: Dims, p: Pos, m: CursorMove)
    requires ValidDims(d)
    ensures Step(d, p, m) == SoftClamp(d, p, m)
  {
  }

  /** Moving right from one step past `CursorMaxRight` is still taken and
      ends two steps (four cells) past it, and likewise downwards. */
  lemma StepOvershootsNamedMaximum(d: Dims, y: U16, x: U16)
    requires ValidDims(d)
    ensures Step(d, Pos(CursorMaxRight(d) + 2, y), Right).x == CursorMaxRight(d) + 4
    ensures Step(d, Pos(x, CursorMaxDown(d) + 2), Down).y == CursorMaxDown(d) + 4
  {
  }

  /** The position reached by applying the step rule for each move in turn.
      This composes positions the step rule computes; `move_cursor` itself
      drops each of them, so it is not the terminal cursor after the moves.
      Each move changes a coordinate by at most one step. */
  function Walk(d: Dims, p: Pos, ms: seq<CursorMove>): (r: Pos)
    requires ValidDims(d)
    ensures -2 * |ms| <= r.x - p.x <= 2 * |ms|
    ensures -2 * |ms| <= r.y - p.y <= 2 * |ms|
    decreases |ms|
  {
    if ms == [] then p else Walk(d, Step(d, p, ms[0]), ms[1..])
  }

  /** Every step changes one coordinate by 0 or 2, so any sequence of steps
      keeps the parity of both coordinates. */
  lemma {:induction false} WalkPreservesParity(d: Dims, p: Pos, ms: seq<CursorMove>)
    requires ValidDims(d)
    ensures Walk(d, p, ms).x % 2 == p.x % 2
    ensures Walk(d, p, ms).y % 2 == p.y % 2
    decreases |ms|
  {
    if ms != [] {
      var q := Step(d, p, ms[0]);
      assert q.x % 2 == p.x % 2 && q.y % 2 == p.y % 2;
      WalkPreservesParity(d, q, ms[1..]);
    }
  }

  /** Any sequence of steps from a reachable position stays in reach. */
  lemma {:induction false} WalkStaysInReach(d: Dims, p: Pos, ms: seq<CursorMove>)
    requires ValidDims(d) && InReach(d, p)
    ensures InReach(d, Walk(d, p, ms))
    decreases |ms|
  {
    if ms != [] {
      WalkStaysInReach(d, Step(d, p, ms[0]), ms[1..]);
    }
  }

  /** The terminal, reduced to the one piece of its state this code reads:
      where the hardware cursor is. */
  class Terminal {
    var cursor: Pos

    constructor (start: Pos)
      ensures cursor == start
    {
      cursor := start;
    }

    /** `move_cursor`: reads the cursor into a local copy, applies the step
        rule to the copy, and never writes it back, so the terminal's
        cursor is the same after the call as before it. */
    method MoveCursor(d: Dims, m: CursorMove)
      requires ValidDims(d)
      modifies this
      ensures cursor == old(cursor)
    {
      var cursorPos := cursor;
      match m {
        case Up =>
          if cursorPos.y >= CURSOR_MAX_UP + CURSOR_MOVE { cursorPos := cursorPos.(y := cursorPos.y - CURSOR_MOVE); }
        case Right =>
          if cursorPos.x <= CursorMaxRight(d) + CURSOR_MOVE { cursorPos := cursorPos.(x := cursorPos.x + CURSOR_MOVE); }
        case Down =>
          if cursorPos.y <= CursorMaxDown(d) + CURSOR_MOVE { cursorPos := cursorPos.(y := cursorPos.y + CURSOR_MOVE); }
        case Left =>
          if cursorPos.x >= CURSOR_MAX_LEFT + CURSOR_MOVE { cursorPos := cursorPos.(x := cursorPos.x - CURSOR_MOVE); }
      }
      // the computed position is the step rule's, and it is dropped here
      assert cursorPos == Step(d, cursor, m);
    }
  }
}
