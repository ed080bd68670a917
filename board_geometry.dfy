/** Pixel arithmetic of the board window: which square a mouse position
    falls on, where a square's cell and centre are drawn, and which on-screen
    control a click reaches first. */
module BoardGeometry {
  import opened ChessTypes

  const WIDTH := 1200
  const HEIGHT := 900
  /** The side of one square in pixels, a fifteenth of the window width. */
  const SQ_SIZE := 80
  const BOARD_SIZE := 8 * SQ_SIZE

  lemma SquareSizeFromWidth()
    ensures SQ_SIZE == WIDTH / 15 && BOARD_SIZE == 640
  {
  }

  datatype Point = Point(x: int, y: int)

  /** An axis-aligned rectangle with its top-left corner at (x, y). */
  datatype Rect = Rect(x: int, y: int, w: int, h: int)

  /** Point-in-rectangle test; the right and bottom edges are excluded. */
  predicate Contains(r: Rect, px: int, py: int)
  {
    r.x <= px < r.x + r.w && r.y <= py < r.y + r.h
  }

  /** Two rectangles that share no pixel. */
  predicate Disjoint(a: Rect, b: Rect)
  {
    a.x + a.w <= b.x || b.x + b.w <= a.x || a.y + a.h <= b.y || b.y + b.h <= a.y
  }

  lemma DisjointHasNoCommonPoint(a: Rect, b: Rect, px: int, py: int)
    requires Disjoint(a, b)
    ensures !(Contains(a, px, py) && Contains(b, px, py))
  {
  }

  const BOARD_RECT := Rect(0, 0, BOARD_SIZE, BOARD_SIZE)

  /** The strip under the left-most column that the mouse mapping treats specially:
      x below one square width, y within the last square height of the window. */
  const HARD_CODED_STRIP := Rect(0, HEIGHT - SQ_SIZE, SQ_SIZE, SQ_SIZE)

  const UNDO_BUTTON := Rect(BOARD_SIZE + 10, HEIGHT - 60, 120, 40)
  const RESTART_BUTTON := Rect(BOARD_SIZE + 150, HEIGHT - 60, 120, 40)

  /** The cell a square is drawn in; white's first rank is at the bottom. */
  function SquareCell(sq: Square): (r: Rect)
    ensures r.w == SQ_SIZE && r.h == SQ_SIZE
    ensures 0 <= r.x && r.x + r.w <= BOARD_SIZE && 0 <= r.y && r.y + r.h <= BOARD_SIZE
    ensures Disjoint(r, HARD_CODED_STRIP)
    ensures r.x / SQ_SIZE == FileOf(sq) && 7 - r.y / SQ_SIZE == RankOf(sq)
  {
    Rect(FileOf(sq) * SQ_SIZE, (7 - RankOf(sq)) * SQ_SIZE, SQ_SIZE, SQ_SIZE)
  }

  /** The pixel an arrow to or from a square is anchored at. */
  function SquareCentre(sq: Square): (p: Point)
    ensures Contains(SquareCell(sq), p.x, p.y)
    ensures p.x - SquareCell(sq).x == p.y - SquareCell(sq).y == SQ_SIZE / 2
  {
    Point(FileOf(sq) * SQ_SIZE + SQ_SIZE / 2, (7 - RankOf(sq)) * SQ_SIZE + SQ_SIZE / 2)
  }

  /** The square under a mouse position, if any. Python's floor division by a
      positive number agrees with Dafny's `/` for every integer, negative ones included. */
  function SquareUnderMouse(x: int, y: int): (r: Option<Square>)
    ensures Contains(HARD_CODED_STRIP, x, y) ==> r == Some(A8)
    ensures !Contains(HARD_CODED_STRIP, x, y) ==> (r.Some? <==> Contains(BOARD_RECT, x, y))
    ensures r.Some? && !Contains(HARD_CODED_STRIP, x, y) ==> Contains(SquareCell(r.value), x, y)
  {
    if 0 <= x < SQ_SIZE && HEIGHT - SQ_SIZE <= y < HEIGHT then
      Some(SquareAt(0, 7))
    else
      var file, row := x / SQ_SIZE, y / SQ_SIZE;
      var rank := 7 - row;
      if 0 <= file < 8 && 0 <= rank < 8 then Some(SquareAt(file, rank)) else None
  }

  /** The `if square:` test of the click handler: no square, and square index 0
      (a1, which the language treats as false), are both ignored. */
  function AcceptedSquare(r: Option<Square>): (a: Option<Square>)
    ensures a.Some? <==> r.Some? && (FileOf(r.value) != 0 || RankOf(r.value) != 0)
    ensures a.Some? ==> a == r
  {
    if r.Some? && r.value != 0 then r else None
  }

  /** On the board, the square has file x // 80 and rank 7 - y // 80. */
  lemma OnBoardSquare(x: int, y: int)
    requires 0 <= x < BOARD_SIZE && 0 <= y < BOARD_SIZE
    ensures SquareUnderMouse(x, y) == Some(SquareAt(x / SQ_SIZE, 7 - y / SQ_SIZE))
  {
  }

  /** The hard-coded strip lies below the board and yields a8, not a1. */
  lemma HardCodedStripIsOffBoardA8()
    ensures Disjoint(HARD_CODED_STRIP, BOARD_RECT)
    ensures A8 == 56 && FileOf(A8) == 0 && RankOf(A8) == 7 && A8 != A1
    ensures forall x, y :: Contains(HARD_CODED_STRIP, x, y) ==> SquareUnderMouse(x, y) == Some(56)
  {
  }

  /** Every pixel of a square's drawn cell maps back to that square. */
  lemma CellMapsBack(sq: Square, x: int, y: int)
    requires Contains(SquareCell(sq), x, y)
    ensures SquareUnderMouse(x, y) == Some(sq)
  {
    var file, row := FileOf(sq), 7 - RankOf(sq);
    assert 0 <= x < BOARD_SIZE && 0 <= y < BOARD_SIZE;
    OnBoardSquare(x, y);
    DivWithinCell(x, file);
    DivWithinCell(y, row);
    SquareFromFileRank(sq);
  }

  /** A coordinate inside the k-th band of squares divides down to k. */
  lemma DivWithinCell(v: int, k: int)
    requires k * SQ_SIZE <= v < k * SQ_SIZE + SQ_SIZE
    ensures v / SQ_SIZE == k
  {
  }

  /** The centre of every square maps back to that square. */
  lemma CentreMapsBack(sq: Square)
    ensures SquareUnderMouse(SquareCentre(sq).x, SquareCentre(sq).y) == Some(sq)
  {
    CellMapsBack(sq, SquareCentre(sq).x, SquareCentre(sq).y);
  }

  /** Distinct squares are drawn in disjoint cells. */
  lemma CellsDisjoint(a: Square, b: Square)
    requires a != b
    ensures Disjoint(SquareCell(a), SquareCell(b))
  {
    SquareFromFileRank(a);
    SquareFromFileRank(b);
    var fa, ra, fb, rb := FileOf(a), RankOf(a), FileOf(b), RankOf(b);
    assert SquareCell(a) == Rect(fa * SQ_SIZE, (7 - ra) * SQ_SIZE, SQ_SIZE, SQ_SIZE);
    assert SquareCell(b) == Rect(fb * SQ_SIZE, (7 - rb) * SQ_SIZE, SQ_SIZE, SQ_SIZE);
    if fa == fb {
      assert ra != rb;
    }
  }

  /** A click can select every square except a1: the cell of a1 maps to a1,
      which the `if square:` test then drops. */
  lemma ClickableSquares(sq: Square, x: int, y: int)
    requires Contains(SquareCell(sq), x, y)
    ensures AcceptedSquare(SquareUnderMouse(x, y)) == (if sq == A1 then None else Some(sq))
  {
    CellMapsBack(sq, x, y);
  }

  /** What a mouse press reaches: the undo button is tested first, then the
      restart button, and only then the board. */
  datatype ClickTarget = UndoControl | RestartControl | BoardClick(square: Option<Square>)

  function ClickTargetAt(x: int, y: int): (t: ClickTarget)
    ensures t == UndoControl <==> Contains(UNDO_BUTTON, x, y)
    ensures t == RestartControl <==> Contains(RESTART_BUTTON, x, y)
    ensures !t.BoardClick? ==> SquareUnderMouse(x, y).None?
    ensures SquareUnderMouse(x, y).Some? ==> t == BoardClick(SquareUnderMouse(x, y))
    ensures t.BoardClick? ==> t.square == SquareUnderMouse(x, y)
  {
    ControlsDisjoint();
    DisjointHasNoCommonPoint(UNDO_BUTTON, RESTART_BUTTON, x, y);
    if Contains(UNDO_BUTTON, x, y) then UndoControl
    else if Contains(RESTART_BUTTON, x, y) then RestartControl
    else BoardClick(SquareUnderMouse(x, y))
  }

  /** The two buttons lie beside the board, away from the strip and from each
      other, so a press on a square's cell always reaches the board. */
  lemma ControlsBesideBoard(sq: Square, x: int, y: int)
    requires Contains(SquareCell(sq), x, y)
    ensures ClickTargetAt(x, y) == BoardClick(Some(sq))
  {
    CellMapsBack(sq, x, y);
  }

  lemma ControlsDisjoint()
    ensures Disjoint(UNDO_BUTTON, RESTART_BUTTON)
    ensures Disjoint(UNDO_BUTTON, BOARD_RECT) && Disjoint(RESTART_BUTTON, BOARD_RECT)
    ensures Disjoint(UNDO_BUTTON, HARD_CODED_STRIP) && Disjoint(RESTART_BUTTON, HARD_CODED_STRIP)
  {
  }
}
