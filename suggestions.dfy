/** Engine suggestions: turning the engine's analysis lines into (move, score)
    pairs, the arrows drawn for the best three, and the layout of the text
    lines that list them. */
module Suggestions {
  import opened ChessTypes
  import opened BoardGeometry

  /** An engine evaluation from the side to move's point of view: centipawns,
      or a forced mate in the given number of moves (negative when the side to
      move is being mated). */
  datatype Score = Cp(centipawns: int) | Mate(moves: int)

  const MATE_SCORE := 10000

  /** The engine library's score(mate_score=10000): a mate for the side to move
      scores 10000 minus its distance; a mate against it, whose move count is
      negative, scores -10000 minus that count, i.e. -10000 plus its distance.
      The score is kept in centipawns; the display divides it by 100. */
  function Centipawns(s: Score): int
  {
    match s
    case Cp(c) => c
    case Mate(m) => if m > 0 then MATE_SCORE - m else -MATE_SCORE - m
  }

  /** The engine library's own ranking of scores, from the side to move's
      point of view: delivering mate beats every evaluation and a nearer mate
      beats a farther one; being mated (Mate(0) included) loses to every
      evaluation and a later mate beats a sooner one. */
  predicate Outranks(a: Score, b: Score)
  {
    match (a, b)
    case (Cp(c), Cp(d)) => c > d
    case (Mate(m), Cp(_)) => m > 0
    case (Cp(_), Mate(n)) => n <= 0
    case (Mate(m), Mate(n)) =>
      if m > 0 && n > 0 then m < n
      else if m > 0 then true
      else if n > 0 then false
      else m < n
  }

  /** The mate distances and evaluations for which the integer score still
      separates mates from evaluations. */
  const MAX_MATE_DISTANCE := 100

  predicate InScoreRange(s: Score)
  {
    match s
    case Cp(c) => -MATE_SCORE + MAX_MATE_DISTANCE < c < MATE_SCORE - MAX_MATE_DISTANCE
    case Mate(m) => -MAX_MATE_DISTANCE < m < MAX_MATE_DISTANCE
  }

  /** Within that range, comparing the integer scores ranks scores exactly as
      the engine library does. */
  lemma CentipawnsPreserveRanking(a: Score, b: Score)
    requires InScoreRange(a) && InScoreRange(b)
    ensures Outranks(a, b) <==> Centipawns(a) > Centipawns(b)
  {
  }

  /** A principal variation: the line of play the engine expects, never empty. */
  type Pv = s: seq<Move> | |s| > 0 witness [Move(0, 0, None)]

  /** One line of a multi-line analysis, best first. */
  datatype AnalysisLine = AnalysisLine(pv: Pv, score: Score)

  datatype Suggestion = Suggestion(move: Move, score: int)

  /** The suggestions shown for an analysis: one per line, in rank order. */
  function SuggestionsFrom(lines: seq<AnalysisLine>): (best: seq<Suggestion>)
    ensures |best| == |lines|
  {
    seq(|lines|, i requires 0 <= i < |lines| => Suggestion(lines[i].pv[0], Centipawns(lines[i].score)))
  }

  /** The loop of get_best_moves: the first move of each line's principal
      variation with its score. */
  method GetBestMoves(lines: seq<AnalysisLine>) returns (best: seq<Suggestion>)
    ensures |best| == |lines|
    ensures forall i :: 0 <= i < |lines| ==> best[i].move == lines[i].pv[0] && best[i].score == Centipawns(lines[i].score)
    ensures best == SuggestionsFrom(lines)
  {
    best := [];
    var k := 0;
    while k < |lines|
      invariant 0 <= k <= |lines| && |best| == k
      invariant forall i :: 0 <= i < k ==> best[i] == Suggestion(lines[i].pv[0], Centipawns(lines[i].score))
    {
      var info := lines[k];
      best := best + [Suggestion(info.pv[0], Centipawns(info.score))];
      k := k + 1;
    }
  }

  // Arrows.

  datatype Color = Color(r: int, g: int, b: int, a: int)

  /** Light pink, light blue and light green, for the first three suggestions. */
  const ARROW_COLORS: seq<Color> := [Color(255, 192, 203, 128), Color(173, 216, 230, 128), Color(144, 238, 144, 128)]

  datatype Arrow = Arrow(start: Point, end: Point, color: Color)

  /** An arrow from the centre of a move's origin to the centre of its target. */
  function MoveArrow(m: Move, color: Color): (a: Arrow)
    ensures SquareUnderMouse(a.start.x, a.start.y) == Some(m.fromSquare)
    ensures SquareUnderMouse(a.end.x, a.end.y) == Some(m.toSquare)
  {
    CentreMapsBack(m.fromSquare);
    CentreMapsBack(m.toSquare);
    Arrow(SquareCentre(m.fromSquare), SquareCentre(m.toSquare), color)
  }

  function Min(a: int, b: int): int
  {
    if a < b then a else b
  }

  /** The loop of draw_arrows: stops once every colour has been used, so at most
      three arrows are drawn, the i-th in the i-th colour and in rank order. */
  method DrawArrows(best: seq<Suggestion>) returns (arrows: seq<Arrow>)
    ensures |arrows| == Min(|best|, |ARROW_COLORS|)
    ensures forall i :: 0 <= i < |arrows| ==> arrows[i] == MoveArrow(best[i].move, ARROW_COLORS[i])
  {
    arrows := [];
    var idx := 0;
    while idx < |best|
      invariant 0 <= idx <= |best| && idx <= |ARROW_COLORS|
      invariant |arrows| == idx
      invariant forall i :: 0 <= i < idx ==> arrows[i] == MoveArrow(best[i].move, ARROW_COLORS[i])
    {
      if idx >= |ARROW_COLORS| {
        break;
      }
      arrows := arrows + [MoveArrow(best[idx].move, ARROW_COLORS[idx])];
      idx := idx + 1;
    }
  }

  // Text lines.

  const TEXT_X := BOARD_SIZE + 10
  const TEXT_TOP := 10
  const LINE_SPACING := 30

  /** A text line "n. move (score)" and where it is drawn. */
  datatype TextLine = TextLine(number: int, move: Move, score: int, x: int, y: int)

  /** The loop of display_best_moves_text: every suggestion gets a line, numbered
      from 1, starting at y = 10 and 30 pixels apart, to the right of the board. */
  method BestMovesText(best: seq<Suggestion>) returns (text: seq<TextLine>)
    ensures |text| == |best|
    ensures forall i :: 0 <= i < |best| ==>
      text[i] == TextLine(i + 1, best[i].move, best[i].score, TEXT_X, TEXT_TOP + LINE_SPACING * i)
  {
    text := [];
    var textY := TEXT_TOP;
    var idx := 0;
    while idx < |best|
      invariant 0 <= idx <= |best| && |text| == idx
      invariant textY == TEXT_TOP + LINE_SPACING * idx
      invariant forall i :: 0 <= i < idx ==>
        text[i] == TextLine(i + 1, best[i].move, best[i].score, TEXT_X, TEXT_TOP + LINE_SPACING * i)
    {
      text := text + [TextLine(idx + 1, best[idx].move, best[idx].score, TEXT_X, textY)];
      textY := textY + LINE_SPACING;
      idx := idx + 1;
    }
  }
}
