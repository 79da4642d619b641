/** `tile_position_from_cursor_position`: the board tile that the key `x`
    selects, computed from the terminal cursor.

    The code computes `row = 2*y - 1` and `col = 2*x - 1` in unsigned 16-bit
    arithmetic and widens both to `isize`.  In a debug build an overflow or
    underflow on the way panics; in a release build it wraps.  Both are
    modelled: `TilePositionFromCursor` on the inputs where no overflow
    happens, `CheckedTilePosition` for the debug build and
    `WrappingTilePosition` for the release build. */
module TileMapping {
  import opened Cursor

  /** A board position as the game engine takes it: signed row and column. */
  datatype TilePosition = TilePosition(row: int, col: int)

  /** The outcome of 16-bit arithmetic that panics on overflow. */
  datatype Checked<T> = Ok(value: T) | Overflow

  /** Cursors for which neither `2 * y - 1` nor `2 * x - 1` leaves the
      16-bit range. */
  predicate Mappable(p: Pos) {
    1 <= p.x <= 0x7FFF && 1 <= p.y <= 0x7FFF
  }

  /** Partner of the mapping: the cursor a tile position came from. */
  function CursorFromTilePosition(t: TilePosition): Pos
    requires 1 <= t.row <= 0xFFFD && 1 <= t.col <= 0xFFFD
  {
    Pos((t.col + 1) / 2, (t.row + 1) / 2)
  }

  /** The mapping on the cursors where it does not overflow: the row comes
      from the cursor row and the column from the cursor column, both odd
      and at least 1, and the cursor can be recovered from the result. */
  function TilePositionFromCursor(p: Pos): (t: TilePosition)
    requires Mappable(p)
    ensures t.row % 2 == 1 && t.col % 2 == 1
    ensures 1 <= t.row <= 0xFFFD && 1 <= t.col <= 0xFFFD
    ensures CursorFromTilePosition(t) == p
  {
    TilePosition(2 * p.y - CURSOR_MAX_UP, 2 * p.x - CURSOR_MAX_LEFT)
  }

  /** Distinct cursors select distinct tiles. */
  lemma TilePositionInjective(p: Pos, q: Pos)
    requires Mappable(p) && Mappable(q)
    ensures TilePositionFromCursor(p) == TilePositionFromCursor(q) ==> p == q
  {
  }

  /** The image of the mapping is exactly the tile positions with odd row
      and odd column in [1, 0xFFFD]: each of them comes from one cursor. */
  lemma OddTilePositionsAreImages(t: TilePosition)
    requires 1 <= t.row <= 0xFFFD && 1 <= t.col <= 0xFFFD
    requires t.row % 2 == 1 && t.col % 2 == 1
    ensures Mappable(CursorFromTilePosition(t))
    ensures TilePositionFromCursor(CursorFromTilePosition(t)) == t
  {
  }

  /** The cursor at the named maxima `CursorMaxRight`, `CursorMaxDown`
      selects a tile outside a board of `d.width` columns and `d.height`
      rows.  (That row 0 and column 0 are never selected is an ensures of
      `TilePositionFromCursor`.) */
  lemma NamedMaximaMapOffBoard(d: Dims)
    requires ValidDims(d) && CursorMaxRight(d) <= 0x7FFF && CursorMaxDown(d) <= 0x7FFF
    ensures TilePositionFromCursor(Pos(CursorMaxRight(d), CursorMaxDown(d))).col >= d.width
    ensures TilePositionFromCursor(Pos(CursorMaxRight(d), CursorMaxDown(d))).row >= d.height
  {
  }

  /** A property of the step rule, not of the terminal cursor (which
      `move_cursor` never changes): when the board is small enough that the
      region `InReach` is mappable, no sequence of steps from a position in
      it leads to one the mapping overflows on.  It does not rule out the
      overflow for a terminal cursor outside that region, such as (0, 0). */
  lemma {:induction false} WalkStaysMappable(d: Dims, p: Pos, ms: seq<CursorMove>)
    requires ValidDims(d) && CursorMaxRight(d) + 4 <= 0x7FFF && CursorMaxDown(d) + 4 <= 0x7FFF
    requires InReach(d, p)
    ensures Mappable(Walk(d, p, ms))
  {
    WalkStaysInReach(d, p, ms);
  }

  function CheckedMul(a: U16, b: U16): (r: Checked<U16>)
  {
    if a * b <= 0xFFFF then Ok(a * b) else Overflow
  }

  function CheckedSub(a: U16, b: U16): (r: Checked<U16>)
  {
    if a >= b then Ok(a - b) else Overflow
  }

  /** `2 * v - sub` with each operation checked, as a debug build runs it. */
  function CheckedDoubleMinus(v: U16, sub: U16): Checked<U16>
  {
    match CheckedMul(2, v)
    case Overflow => Overflow
    case Ok(w) => CheckedSub(w, sub)
  }

  /** The debug build: the row is computed first, then the column, and the
      first overflow panics.  It succeeds exactly on the mappable cursors,
      and then agrees with `TilePositionFromCursor`. */
  function CheckedTilePosition(p: Pos): (r: Checked<TilePosition>)
    ensures r.Ok? <==> Mappable(p)
    ensures r.Ok? ==> r.value == TilePositionFromCursor(p)
  {
    match CheckedDoubleMinus(p.y, CURSOR_MAX_UP)
    case Overflow => Overflow
    case Ok(row) =>
      match CheckedDoubleMinus(p.x, CURSOR_MAX_LEFT)
      case Overflow => Overflow
      case Ok(col) => Ok(TilePosition(row, col))
  }

  /** Reduction modulo 2^16 of a value at most one period outside the
      16-bit range, which is all a single 16-bit doubling or subtraction
      can produce. */
  function Wrap(n: int): (r: U16)
    requires -0x1_0000 <= n < 0x2_0000
    ensures r == n % 0x1_0000
  {
    if n < 0 then n + 0x1_0000 else if n > 0xFFFF then n - 0x1_0000 else n
  }

  /** `2 * v - sub` in wrapping 16-bit arithmetic, as a release build runs it. */
  function WrappingDoubleMinus(v: U16, sub: U16): U16
  {
    Wrap(Wrap(2 * v) - sub)
  }

  /** The release build: each coordinate is `2 * v - 1` reduced modulo
      2^16, so every cursor maps to a position in [0, 0xFFFF] (the widening
      to `isize` keeps the unsigned value); it agrees with
      `TilePositionFromCursor` on the mappable cursors, and cursor row or
      column 0 wraps to 0xFFFF. */
  function WrappingTilePosition(p: Pos): (t: TilePosition)
    ensures t.row == (2 * p.y - 1) % 0x1_0000 && t.col == (2 * p.x - 1) % 0x1_0000
    ensures 0 <= t.row <= 0xFFFF && 0 <= t.col <= 0xFFFF
    ensures Mappable(p) ==> t == TilePositionFromCursor(p)
    ensures p.y == 0 ==> t.row == 0xFFFF
    ensures p.x == 0 ==> t.col == 0xFFFF
  {
    TilePosition(WrappingDoubleMinus(p.y, CURSOR_MAX_UP), WrappingDoubleMinus(p.x, CURSOR_MAX_LEFT))
  }
}
