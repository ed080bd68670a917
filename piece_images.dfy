/** The table from a piece's symbol (upper case for white, lower case for
    black) to the name of the image drawn for it. */
module PieceImages {
  import opened ChessTypes

  /** The image names that are loaded at start-up, in load order. */
  const PIECES: seq<string> := ["wP", "bP", "wN", "bN", "wB", "bB", "wR", "bR", "wQ", "bQ", "wK", "bK"]

  const PIECE_TO_IMAGE: map<char, string> := map[
    'P' := "wP", 'p' := "bP",
    'N' := "wN", 'n' := "bN",
    'B' := "wB", 'b' := "bB",
    'R' := "wR", 'r' := "bR",
    'Q' := "wQ", 'q' := "bQ",
    'K' := "wK", 'k' := "bK"
  ]

  const WHITE_SYMBOLS := "PNBRQK"
  const BLACK_SYMBOLS := "pnbrqk"

  function ToUpper(c: char): char
  {
    if 'a' <= c <= 'z' then (c as int - 'a' as int + 'A' as int) as char else c
  }

  /** The image for a symbol, or None when the symbol is not a piece. */
  function ImageFor(symbol: char): (r: Option<string>)
    ensures r.Some? <==> symbol in WHITE_SYMBOLS || symbol in BLACK_SYMBOLS
  {
    if symbol in PIECE_TO_IMAGE then Some(PIECE_TO_IMAGE[symbol]) else None
  }

  /** The naming rule the table follows: a colour letter, then the piece
      letter in upper case. */
  function ImageByRule(symbol: char): Option<string>
  {
    if symbol in WHITE_SYMBOLS then Some(['w', symbol])
    else if symbol in BLACK_SYMBOLS then Some(['b', ToUpper(symbol)])
    else None
  }

  lemma TableFollowsRule(symbol: char)
    ensures ImageFor(symbol) == ImageByRule(symbol)
  {
    if symbol in WHITE_SYMBOLS || symbol in BLACK_SYMBOLS {
      assert symbol in PIECE_TO_IMAGE;
    }
  }

  /** Every symbol's image is one of those loaded, and every loaded image is
      the image of some symbol, so the two look-ups in a row that draw a
      piece never miss. */
  lemma ImagesAreLoadedPieces()
    ensures forall c :: c in PIECE_TO_IMAGE ==> PIECE_TO_IMAGE[c] in PIECES
    ensures PIECE_TO_IMAGE.Values == set k | 0 <= k < |PIECES| :: PIECES[k]
  {
    forall c | c in PIECE_TO_IMAGE
      ensures PIECE_TO_IMAGE[c] in PIECES
    {
      TableFollowsRule(c);
    }
    forall k | 0 <= k < |PIECES|
      ensures PIECES[k] in PIECE_TO_IMAGE.Values
    {
      var c := if k % 2 == 0 then WHITE_SYMBOLS[k / 2] else BLACK_SYMBOLS[k / 2];
      assert PIECE_TO_IMAGE[c] == PIECES[k];
    }
  }

  lemma TableInjective(c: char, d: char)
    requires c in PIECE_TO_IMAGE && d in PIECE_TO_IMAGE && c != d
    ensures PIECE_TO_IMAGE[c] != PIECE_TO_IMAGE[d]
  {
  }
}
