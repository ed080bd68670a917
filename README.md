# Maia chess viewer: a Dafny model of its session logic

The viewer shows a chess board. A human plays against a Maia engine, an lc0
process whose weights set its Elo tier. The engine's best three moves are
drawn as arrows and listed as text. This project models the logic inside
`maia_chess.py` once drawing, the engine process and the chess rules are
taken away, and proves properties of that model.

- `chess_types.dfy` (`ChessTypes`): squares are numbered a1 = 0 … h8 = 63. A square is built from a file and a rank. A move has a from-square, a to-square and an optional promotion piece.
- `board_geometry.dfy` (`BoardGeometry`): the pixel arithmetic.
  - Squares are 80 px (a fifteenth of the 1200 px window) and the board is 640 px.
  - Covers the mouse-to-square mapping, each square's highlighted cell and arrow centre, and the undo and restart buttons.
  - Covers the `if square:` test that drops square index 0.
- `piece_images.dfy` (`PieceImages`): the symbol-to-image table.
- `engine_tiers.dfy` (`EngineTiers`):
  - the Elo check (1100–1900 in steps of 100);
  - the weights name `maia-<elo>.pb.gz`, with a parser that reads the tier back;
  - `set_engine_parameters`, which returns the new engine together with the engine calls it makes (quit, launch, configure).
- `elo_menu.dfy` (`EloMenu`): the nine-button tier menu and its event loop.
- `suggestions.dfy` (`Suggestions`): how analysis lines become (move, score) pairs, the three-arrow cap and the layout of the text lines.
- `game_session.dfy` (`GameSession`): the state that `main()` keeps in local variables, as the class `Session`.
  - It has one method per handler: a click on a square, undo, restart, Escape, and a mouse press dispatched to one of them.
  - Each method is proved to perform a step function on a `Snapshot` of the state.
  - The lemmas about those step functions state the session's invariant and what each handler does.

The chess rules are a parameter, `legal: seq<Move> -> set<Move>`. It gives the legal moves of the position reached by playing the given moves from the start. So the board is modelled as its move stack. Engine analysis is likewise a parameter, `analyse: (Engine, seq<Move>) -> seq<AnalysisLine>`. An engine is identified by the weights path it was started with.

The session invariant (`GameSession.Inv`) says:
- the board's move stack equals the move history;
- every history move was legal when it was played;
- every history move was built from two clicks, so it has no promotion piece and does not touch a1;
- the last move is the last history element, or None;
- the selection is None exactly when the click buffer is empty, and otherwise the buffer is exactly the selected square;
- the rating is a valid tier, and the engine runs that tier's weights and was the last one started;
- the suggestions are the analysis of the current board.

Behaviour of the source that the model keeps as written:
- The "a1" special case in `get_square_under_mouse` tests a strip *below* the board (x < 80, 820 ≤ y < 900). It returns `chess.square(0, 7)`, which is 56, i.e. a8. The real a1 cell maps to index 0, and the click handler's `if square:` then drops it. So a1 can never be selected, and no move the viewer plays starts or ends on a1. A move needing a promotion piece can never be played either (`BoardGeometry.ClickableSquares`, `GameSession.PlayedMovesAreClickBuilt`).
- Undo and restart leave the current selection in place.
- Escape calls `set_engine_parameters` even when the menu is closed without a pick. So the engine is quit and started again on the same weights (`GameSession.EscapeWithoutPickRestartsEngine`).
- `set_engine_parameters` raises before `engine.quit()` for an invalid rating. In `main()` that error would escape the event loop. But the menu only ever returns the current rating or a button's rating, so it cannot happen (`EloMenu.MenuChoiceIsValid`, `GameSession.EscapePreservesInv`).

The code makes some plain choices, and the model follows them:
- analysis runs synchronously after each change, with no generation counter;
- the old engine is quit before the new one is started, with no fallback if the start fails;
- undo with no history silently does nothing.

## Model

| member | source | states |
|---|---|---|
| BoardGeometry.SquareSizeFromWidth | maia_chess.py:14-16 | a square is WIDTH // 15 = 80 px and the board 640 px |
| BoardGeometry.SquareUnderMouse | maia_chess.py:142-160 | a point in the hard-coded strip gives a8; any other point gives a square exactly when it lies on the board, and that square's drawn cell contains the point |
| BoardGeometry.OnBoardSquare | maia_chess.py:151-158 | on the board the square has file x // 80 and rank 7 − y // 80 |
| BoardGeometry.HardCodedStripIsOffBoardA8 | maia_chess.py:145-148 | the strip shares no pixel with the board and yields square 56, which is a8 and not a1 |
| BoardGeometry.SquareCell | maia_chess.py:87-100 | the highlight cell is an 80×80 square inside the 640×640 board and clear of the hard-coded strip; its corner divides back to the square's file and un-flipped rank |
| BoardGeometry.SquareCentre | maia_chess.py:119-129 | the arrow anchor lies inside the square's cell, half a square in from its corner |
| BoardGeometry.CellMapsBack | maia_chess.py:142-160 | every pixel of a square's drawn cell maps back to that square |
| BoardGeometry.CentreMapsBack | maia_chess.py:122-129 | the centre of every square maps back to that square |
| BoardGeometry.CellsDisjoint | maia_chess.py:96-100 | distinct squares are drawn in disjoint cells |
| BoardGeometry.AcceptedSquare | maia_chess.py:339 | a click is accepted exactly when it gives a square and that square is not the one on file a and rank 1, whose index 0 the truth test drops |
| BoardGeometry.ClickableSquares | maia_chess.py:338-339 | a click in a square's cell selects it, except in the a1 cell, where the click is dropped |
| BoardGeometry.ClickTargetAt | maia_chess.py:323-338 | a press reaches undo exactly when it is inside the undo button and restart exactly when it is inside the restart button (the buttons are disjoint); a press that reaches either is never over a square, and any other press reaches the board branch with the square under the mouse |
| BoardGeometry.ControlsBesideBoard | maia_chess.py:290-304 | a press on a square's cell always reaches the board, never a button |
| BoardGeometry.ControlsDisjoint | maia_chess.py:290-304 | the two buttons are disjoint from each other, from the board and from the strip |
| PieceImages.ImageFor | maia_chess.py:38-51 | a symbol has an image exactly when it is one of the twelve piece letters |
| PieceImages.TableFollowsRule | maia_chess.py:38-51 | the table's image is the colour letter followed by the upper-case piece letter |
| PieceImages.ImagesAreLoadedPieces | maia_chess.py:32-51 | the table's images are exactly the images loaded at start-up, so drawing a piece never misses |
| PieceImages.TableInjective | maia_chess.py:38-51 | distinct symbols have distinct images |
| EngineTiers.ValidElo | maia_chess.py:165 | the rating check; ValidEloIsTier proves it holds exactly for the nine tiers |
| EngineTiers.WeightsName | maia_chess.py:170 | the weights file name of a rating; WeightsNameRoundTrip and WeightsNameInjective state its properties |
| EngineTiers.StartCalls | maia_chess.py:174-181 | the launch and one-thread configuration of an engine; SetEngineParameters and GameSession.Inv use it to record which engine was last started |
| EngineTiers.ValidEloIsTier | maia_chess.py:165-168 | a rating passes the check exactly when it is 1100 + 100·i for some i < 9 |
| EngineTiers.DecimalRoundTrip | maia_chess.py:170 | reading back the decimal text of a rating gives the rating |
| EngineTiers.WeightsNameRoundTrip | maia_chess.py:170 | the tier can be read back out of the weights name "maia-" + rating + ".pb.gz" |
| EngineTiers.WeightsNameInjective | maia_chess.py:170 | different tiers have different weights files |
| EngineTiers.EngineForRoundTrip | maia_chess.py:170-179 | a tier's engine is launched on weights that name that tier |
| EngineTiers.DefaultEngineIsDefaultTier | maia_chess.py:261-266 | the path written out in main() is the 1500 tier's weights |
| EngineTiers.SetEngineParameters | maia_chess.py:163-182 | fails exactly for an invalid rating, and then makes no engine call; otherwise it quits the old engine, launches lc0 on the tier's weights and sets one thread |
| EloMenu.MenuButton | maia_chess.py:214-216 | the i-th button's rectangle and rating; BuildMenuButtons, MenuButtonsDisjoint and MenuButtonsInWindow state its properties |
| EloMenu.BuildMenuButtons | maia_chess.py:213-216 | nine buttons, the i-th for rating 1100 + 100·i, 100×50 at x = 100 + (i % 5)·120, y = 100 + (i // 5)·70 |
| EloMenu.MenuOffersExactlyTheTiers | maia_chess.py:213-216 | every button's rating passes the check, and every valid rating has a button |
| EloMenu.MenuButtonsDisjoint | maia_chess.py:213-216 | no two buttons overlap |
| EloMenu.MenuButtonsInWindow | maia_chess.py:213-216 | every button lies inside the 1200×900 window |
| EloMenu.ButtonHit | maia_chess.py:226-228 | a point finds a rating exactly when some button contains it, and the rating is that of the first button in the list that contains it |
| EloMenu.FindButton | maia_chess.py:226-228 | the button loop returns the rating of the first button under the point |
| EloMenu.RunEloMenu | maia_chess.py:218-244 | the menu loop returns `MenuChoice` of the batches it reads |
| EloMenu.BatchResult | maia_chess.py:219-228 | how one batch of events ends; PickedIsAButton and BatchWithoutClick state its properties |
| EloMenu.MenuChoice | maia_chess.py:218-244 | what the menu returns after the batches it reads; RunEloMenu is proved to compute it, and MenuChoiceIsValid, EscapeKeepsRating and ClickPicksTier state its properties |
| EloMenu.PickedIsAButton | maia_chess.py:225-228 | a rating picked by a click is the rating of one of the buttons |
| EloMenu.MenuChoiceIsValid | maia_chess.py:205-244 | from a valid rating the menu only ever returns a valid rating |
| EloMenu.BatchWithoutClick | maia_chess.py:219-228 | a batch of events with no click on a button leaves the menu open unless it held Escape |
| EloMenu.HitIsTier | maia_chess.py:226-228 | a point inside the i-th button hits the i-th tier and no other button |
| EloMenu.PressPicks | maia_chess.py:219-228 | a press on a button anywhere in a batch picks that button when no earlier event of the batch hit a button, even after an Escape in the same batch |
| EloMenu.EscapeKeepsRating | maia_chess.py:218-244 | an Escape in any batch, after any number of batches (empty polls included) without a button hit, returns the current rating unchanged |
| EloMenu.ClickPicksTier | maia_chess.py:218-228 | a press inside the i-th button returns the i-th tier, after any number of batches with neither a button hit nor an Escape, and after any events of its own batch that hit no button |
| Suggestions.Centipawns | maia_chess.py:200 | the integer score of an evaluation; CentipawnsPreserveRanking states its property |
| Suggestions.CentipawnsPreserveRanking | maia_chess.py:200 | for mates within 100 moves and evaluations within ±9900, one integer score is larger than another exactly when its score outranks the other in the chess library's order (`Outranks`: delivering mate beats every evaluation, a nearer mate beats a farther one, being mated loses to every evaluation) |
| Suggestions.SuggestionsFrom | maia_chess.py:195-202 | one suggestion per analysis line |
| Suggestions.GetBestMoves | maia_chess.py:195-202 | one (first move of the line's principal variation, score in centipawns) pair per analysis line, in order |
| Suggestions.MoveArrow | maia_chess.py:120-130 | an arrow starts on a pixel that maps back to the move's from-square and ends on one that maps back to its to-square |
| Suggestions.DrawArrows | maia_chess.py:134-138 | min(n, 3) arrows are drawn, the i-th for the i-th suggestion in the i-th colour |
| Suggestions.BestMovesText | maia_chess.py:185-192 | one text line per suggestion, numbered i + 1, at x = 650 and y = 10 + 30·i |
| GameSession.SelectStep | maia_chess.py:338-357 | the click handler's effect on the state; SelectPreservesInv, FirstClickSelects, LegalMoveIsPlayed and IllegalMoveChangesNothing state its properties |
| GameSession.UndoStep | maia_chess.py:324-330 | the undo handler's effect; UndoPreservesInv, UndoNoOpIffEmpty, UndoPopsOneMove and MoveThenUndo state its properties |
| GameSession.RestartStep | maia_chess.py:331-336 | the restart handler's effect; RestartPreservesInv and RestartIsUndoAll state its properties |
| GameSession.RetierStep | maia_chess.py:318-320 | set_engine_parameters followed by a new analysis; RetierToValidTier and RetierRejectsInvalidTier state its properties |
| GameSession.EscapeStep | maia_chess.py:315-322 | the Escape handler's effect; EscapePreservesInv and EscapeWithoutPickRestartsEngine state its properties |
| GameSession.MouseDownStep | maia_chess.py:323-357 | a mouse press dispatched to undo, restart or a square; MouseDownPreservesInv states its property |
| GameSession.InitialSatisfiesInv | maia_chess.py:247-270 | the initial state satisfies the session invariant |
| GameSession.SelectPreservesInv | maia_chess.py:338-357 | a click on an accepted square keeps the invariant, including the selection/click-buffer relation and board/history agreement |
| GameSession.UndoPreservesInv | maia_chess.py:324-330 | undo keeps the invariant |
| GameSession.RestartPreservesInv | maia_chess.py:331-336 | restart keeps the invariant |
| GameSession.RetierToValidTier | maia_chess.py:318-320 | switching to a valid tier succeeds and keeps the invariant; the board, history and selection stay as they were; the old engine is quit before the tier's engine is started |
| GameSession.RetierRejectsInvalidTier | maia_chess.py:165-173 | an invalid rating is rejected and no engine call is made |
| GameSession.EscapePreservesInv | maia_chess.py:315-322 | once the menu has returned, Escape never fails and keeps the invariant |
| GameSession.MouseDownPreservesInv | maia_chess.py:323-357 | every mouse press keeps the invariant |
| GameSession.FirstClickSelects | maia_chess.py:340-342 | a first click selects the square and puts it in the click buffer, changing nothing else |
| GameSession.LegalMoveIsPlayed | maia_chess.py:343-354 | a legal second click appends exactly that move to board and history, makes it the last move, clears the selection and leaves the engine alone |
| GameSession.IllegalMoveChangesNothing | maia_chess.py:355-357 | an illegal second click changes nothing but the selection, which becomes the second square |
| GameSession.UndoNoOpIffEmpty | maia_chess.py:324-330 | undo leaves the state unchanged exactly when the history is empty; otherwise it takes a move back |
| GameSession.UndoPopsOneMove | maia_chess.py:325-329 | undo removes exactly the last move from both board and history, sets the last move to the new last element or None and re-analyses; every other part of the state is unchanged |
| GameSession.MoveThenUndo | maia_chess.py:324-354 | a legal move followed by undo gives back the prior state, with the selection cleared |
| GameSession.UndoTimesRestoresPrefix | maia_chess.py:324-330 | k undos remove exactly the last k moves from board and history and leave the selection, rating, engine and engine-call log alone |
| GameSession.UndoTimesPreservesInv | maia_chess.py:324-330 | any number of undos keeps the invariant |
| GameSession.RestartIsUndoAll | maia_chess.py:324-336 | restart gives exactly the state reached by undoing every move of the history one at a time: empty board and history, no last move, the analysis of the initial position, and selection, rating and engine untouched |
| GameSession.EscapeWithoutPickRestartsEngine | maia_chess.py:315-320 | closing the menu with Escape in any batch, with no button hit up to it, returns the current rating, and the handler then quits and restarts the same engine and changes nothing else |
| GameSession.PlayedMovesAreClickBuilt | maia_chess.py:338-349 | no played move touches a1 or carries a promotion piece |
| GameSession.Session.constructor | maia_chess.py:247-270 | the session starts in the initial state: empty history, no selection, tier 1500 and its analysis |
| GameSession.Session.Select | maia_chess.py:338-357 | the click handler performs the select step and keeps the invariant |
| GameSession.Session.Undo | maia_chess.py:324-330 | the undo handler performs the undo step |
| GameSession.Session.Restart | maia_chess.py:331-336 | the restart handler performs the restart step |
| GameSession.Session.Escape | maia_chess.py:315-322 | the Escape handler runs the menu until it returns, then switches the engine and re-analyses, without error |
| GameSession.Session.MouseDown | maia_chess.py:323-338 | a mouse press is dispatched to undo, restart or the square under the mouse |

## Left out

- Drawing: the board, pieces, highlights, legal-move dots, button and text rendering, fonts, images and window set-up. Only their coordinate arithmetic is modelled.
- `resource_path`: it depends on the bundler's `sys._MEIPASS` and the file system.
- The lc0 process itself: launching, configuring, analysing under a one-second limit, and quitting.
  - These calls are recorded as `EngineCall` values.
  - Analysis is a deterministic function of the engine and the position. The time limit, and the nondeterminism it brings, are not modelled.
  - The number of lines is not bounded by the `multipv=3` request.
- The chess rules (legal moves, push, pop, reset, game over) belong to the chess library. Legality is an abstract parameter.
- The outer `while not board.is_game_over()` loop and the final `engine.quit()`: the model handles one event at a time and does not stop at game over.
- The QUIT event in the main loop and in the menu: it ends the process.
- The click handler reads `pygame.mouse.get_pos()` rather than the event's position. The model uses one point for both the button tests and the square lookup.
- Which mouse button was pressed: every MOUSEBUTTONDOWN event is treated alike, as in the source.
- The `show_menu` flag: it is always False between events, so Escape is a single transition.
- Suggestions.Centipawns: the score is kept as an integer in centipawns. The division by 100.0 and the `:.2f` formatting are not modelled. The mate rule (10000 minus the distance for a mate for the side to move, −10000 plus the distance for a mate against it, whose move count is negative) follows the chess library's `score(mate_score=10000)`, which `Centipawns` restates; the library itself is not modelled.
- Suggestions.CentipawnsPreserveRanking: holds only for mates within 100 moves and evaluations within ±9900. Beyond that the integer score can rank an evaluation above a mate, as the library's own `score(mate_score=10000)` does.
- Suggestions.GetBestMoves: every analysis line is assumed to carry a non-empty principal variation and a score (the `Pv` type). The source indexes `info["pv"][0]` and `info["score"]` without a check and raises when either is missing, for instance when the engine is asked about a finished game.
- GameSession.Session.Escape: `elo_menu` blocks `main()` until it returns, so every event read meanwhile goes to the menu. The model takes the batches the menu reads up to its return and requires that it does return. A menu that is never closed is not modelled.
- Debug printing.
- `images/svg_to_png.py`: dialog windows, directory walking and SVG conversion are all I/O.
- GameSession.RetierRejectsInvalidTier: `main()` assigns the new rating before `set_engine_parameters` raises. The model returns the error without changing the state, because the error ends `main()` and, as `EloMenu.MenuChoiceIsValid` shows, cannot arise from the menu.
