/** The game session driven by the main event loop: the board (its move stack),
    the move history kept for undo, the last move, the two-click move
    selection, the engine tier and the engine's current suggestions.

    The chess rules are a legality oracle giving the legal moves of the
    position reached by playing a sequence of moves from the start; the
    engine's analysis is a function of the engine and that sequence. Each
    handler is first a step function on a Snapshot of the state, and the
    Session class's methods are proved to perform exactly those steps. */
module GameSession {
  import opened ChessTypes
  import opened BoardGeometry
  import opened EngineTiers
  import opened EloMenu
  import opened Suggestions

  /** The legal moves of the position reached by the given moves. */
  type LegalMoves = seq<Move> -> set<Move>

  /** The analysis lines an engine gives for the position reached by the given moves. */
  type Analyser = (Engine, seq<Move>) -> seq<AnalysisLine>

  datatype Snapshot = Snapshot(
    board: seq<Move>,
    history: seq<Move>,
    lastMove: Option<Move>,
    selected: Option<Square>,
    clicks: seq<Square>,
    elo: int,
    engine: Engine,
    engineCalls: seq<EngineCall>,
    bestMoves: seq<Suggestion>)

  function LastOf(h: seq<Move>): (r: Option<Move>)
    ensures r.Some? <==> h != []
  {
    if h == [] then None else Some(h[|h| - 1])
  }

  function Analysis(analyse: Analyser, engine: Engine, board: seq<Move>): seq<Suggestion>
  {
    SuggestionsFrom(analyse(engine, board))
  }

  /** Every move was legal in the position it was played from. */
  ghost predicate LegalGame(legal: LegalMoves, h: seq<Move>)
  {
    forall i :: 0 <= i < |h| ==> h[i] in legal(h[..i])
  }

  /** A move built from two accepted clicks: no promotion piece, and neither
      square is a1, since a click on a1 is never accepted. */
  predicate ClickBuilt(m: Move)
  {
    m.promotion == None && m.fromSquare != A1 && m.toSquare != A1
  }

  /** No selection and no pending click, or one selected square that is the one click. */
  predicate SelectionConsistent(s: Snapshot)
  {
    && (s.selected.None? <==> s.clicks == [])
    && (s.selected.Some? ==> s.clicks == [s.selected.value] && s.selected.value != A1)
  }

  /** What holds between any two events. */
  ghost predicate Inv(legal: LegalMoves, analyse: Analyser, s: Snapshot)
  {
    && s.board == s.history
    && LegalGame(legal, s.history)
    && (forall i :: 0 <= i < |s.history| ==> ClickBuilt(s.history[i]))
    && s.lastMove == LastOf(s.history)
    && SelectionConsistent(s)
    && ValidElo(s.elo) && s.engine == EngineFor(s.elo)
    && |s.engineCalls| >= 2 && s.engineCalls[|s.engineCalls| - 2..] == StartCalls(s.engine)
    && s.bestMoves == Analysis(analyse, s.engine, s.board)
  }

  // The handlers, as steps on a snapshot.

  /** Session start: the initial position, no history, tier 1500 and its analysis. */
  function Initial(analyse: Analyser): Snapshot
  {
    Snapshot([], [], None, None, [], DEFAULT_ELO, DEFAULT_ENGINE, StartCalls(DEFAULT_ENGINE),
             Analysis(analyse, DEFAULT_ENGINE, []))
  }

  /** A click on an accepted square: the first click selects it; the second
      forms the move from the first square to it, which is played if legal and
      otherwise replaced by a new selection of the second square. */
  function SelectStep(legal: LegalMoves, analyse: Analyser, s: Snapshot, sq: Square): Snapshot
    requires s.selected.Some? ==> s.clicks != []
  {
    if s.selected.None? then
      s.(selected := Some(sq), clicks := s.clicks + [sq])
    else
      var clicks := s.clicks + [sq];
      var m := Move(clicks[0], clicks[1], None);
      if m in legal(s.board) then
        var board := s.board + [m];
        s.(board := board, history := s.history + [m], lastMove := Some(m),
           bestMoves := Analysis(analyse, s.engine, board), selected := None, clicks := [])
      else
        s.(clicks := [sq], selected := Some(sq))
  }

  /** The undo button: nothing without history; otherwise one move comes off the
      board and the history. The selection is kept. */
  function UndoStep(analyse: Analyser, s: Snapshot): Snapshot
    requires s.history != [] ==> s.board != []
  {
    if s.history == [] then s
    else
      var board := s.board[..|s.board| - 1];
      var history := s.history[..|s.history| - 1];
      s.(board := board, history := history, lastMove := LastOf(history),
         bestMoves := Analysis(analyse, s.engine, board))
  }

  /** The restart button: back to the initial position. The selection is kept. */
  function RestartStep(analyse: Analyser, s: Snapshot): Snapshot
  {
    s.(board := [], history := [], lastMove := None, bestMoves := Analysis(analyse, s.engine, []))
  }

  /** Switching to a tier: set_engine_parameters, then a fresh analysis of the
      unchanged board. An invalid rating is an error and touches nothing. */
  function RetierStep(analyse: Analyser, s: Snapshot, elo: int): Result<Snapshot, TierError>
  {
    var r := SetEngineParameters(s.engine, elo);
    match r.result
    case Err(e) => Err(e)
    case Ok(engine) =>
      Ok(s.(elo := elo, engine := engine, engineCalls := s.engineCalls + r.calls,
            bestMoves := Analysis(analyse, engine, s.board)))
  }

  /** Escape: run the tier menu until it returns and switch to the rating it
      returns, even when it is the current one. The batches are the events the
      menu reads up to its return; the session waits for it meanwhile. */
  function EscapeStep(analyse: Analyser, s: Snapshot, batches: seq<seq<MenuEvent>>): Result<Snapshot, TierError>
    requires MenuChoice(MenuButtons(), s.elo, batches).Some?
  {
    RetierStep(analyse, s, MenuChoice(MenuButtons(), s.elo, batches).value)
  }

  /** A mouse press: the undo button, the restart button, or a square. */
  function MouseDownStep(legal: LegalMoves, analyse: Analyser, s: Snapshot, x: int, y: int): Snapshot
    requires s.selected.Some? ==> s.clicks != []
    requires s.history != [] ==> s.board != []
  {
    match ClickTargetAt(x, y)
    case UndoControl => UndoStep(analyse, s)
    case RestartControl => RestartStep(analyse, s)
    case BoardClick(square) =>
      match AcceptedSquare(square)
      case None => s
      case Some(sq) => SelectStep(legal, analyse, s, sq)
  }

  // The invariant holds initially and every handler keeps it.

  lemma InitialSatisfiesInv(legal: LegalMoves, analyse: Analyser)
    ensures Inv(legal, analyse, Initial(analyse))
  {
    DefaultEngineIsDefaultTier();
  }

  lemma SelectPreservesInv(legal: LegalMoves, analyse: Analyser, s: Snapshot, sq: Square)
    requires Inv(legal, analyse, s) && sq != A1
    ensures Inv(legal, analyse, SelectStep(legal, analyse, s, sq))
  {
    var r := SelectStep(legal, analyse, s, sq);
    if s.selected.Some? {
      var m := Move(s.selected.value, sq, None);
      if m in legal(s.board) {
        assert r.history == s.history + [m];
        assert forall i :: 0 <= i < |s.history| ==> r.history[..i] == s.history[..i];
        assert r.history[..|s.history|] == s.history;
      }
    }
  }

  lemma UndoPreservesInv(legal: LegalMoves, analyse: Analyser, s: Snapshot)
    requires Inv(legal, analyse, s)
    ensures Inv(legal, analyse, UndoStep(analyse, s))
  {
    if s.history != [] {
      var h := s.history[..|s.history| - 1];
      assert forall i :: 0 <= i < |h| ==> h[..i] == s.history[..i];
    }
  }

  lemma RestartPreservesInv(legal: LegalMoves, analyse: Analyser, s: Snapshot)
    requires Inv(legal, analyse, s)
    ensures Inv(legal, analyse, RestartStep(analyse, s))
  {
  }

  /** A switch to a valid tier succeeds, keeps the invariant, leaves the board,
      the history and the selection alone, and records that the old engine was
      quit before the new one was started. */
  lemma RetierToValidTier(legal: LegalMoves, analyse: Analyser, s: Snapshot, elo: int)
    requires Inv(legal, analyse, s) && ValidElo(elo)
    ensures RetierStep(analyse, s, elo).Ok?
    ensures Inv(legal, analyse, RetierStep(analyse, s, elo).value)
    ensures var r := RetierStep(analyse, s, elo).value;
      && r.board == s.board && r.history == s.history && r.lastMove == s.lastMove
      && r.selected == s.selected && r.clicks == s.clicks
      && r.elo == elo && TierOfEngine(r.engine) == Some(elo)
      && r.engineCalls == s.engineCalls + [Quit(s.engine)] + StartCalls(r.engine)
  {
    var r := RetierStep(analyse, s, elo).value;
    var n := |r.engineCalls|;
    assert r.engineCalls[n - 2..] == StartCalls(r.engine);
  }

  /** An invalid rating is rejected before the engine is touched. */
  lemma RetierRejectsInvalidTier(analyse: Analyser, s: Snapshot, elo: int)
    requires !ValidElo(elo)
    ensures RetierStep(analyse, s, elo) == Err(InvalidElo(elo))
    ensures SetEngineParameters(s.engine, elo).calls == []
  {
  }

  /** Escape never raises: the menu only returns valid ratings. */
  lemma EscapePreservesInv(legal: LegalMoves, analyse: Analyser, s: Snapshot, batches: seq<seq<MenuEvent>>)
    requires Inv(legal, analyse, s) && MenuChoice(MenuButtons(), s.elo, batches).Some?
    ensures EscapeStep(analyse, s, batches).Ok?
    ensures Inv(legal, analyse, EscapeStep(analyse, s, batches).value)
  {
    MenuChoiceIsValid(s.elo, batches);
    RetierToValidTier(legal, analyse, s, MenuChoice(MenuButtons(), s.elo, batches).value);
  }

  lemma MouseDownPreservesInv(legal: LegalMoves, analyse: Analyser, s: Snapshot, x: int, y: int)
    requires Inv(legal, analyse, s)
    ensures Inv(legal, analyse, MouseDownStep(legal, analyse, s, x, y))
  {
    match ClickTargetAt(x, y)
    case UndoControl => UndoPreservesInv(legal, analyse, s);
    case RestartControl => RestartPreservesInv(legal, analyse, s);
    case BoardClick(square) =>
      var a := AcceptedSquare(square);
      if a.Some? {
        SelectPreservesInv(legal, analyse, s, a.value);
      }
  }

  // What each handler does.

  /** A first click selects the square and changes nothing else. */
  lemma FirstClickSelects(legal: LegalMoves, analyse: Analyser, s: Snapshot, sq: Square)
    requires Inv(legal, analyse, s) && s.selected.None?
    ensures SelectStep(legal, analyse, s, sq) == s.(selected := Some(sq), clicks := [sq])
  {
  }

  /** A legal second click appends exactly that move to the board and the
      history, makes it the last move and clears the selection. */
  lemma LegalMoveIsPlayed(legal: LegalMoves, analyse: Analyser, s: Snapshot, sq: Square)
    requires Inv(legal, analyse, s) && s.selected.Some?
    requires Move(s.selected.value, sq, None) in legal(s.board)
    ensures var r := SelectStep(legal, analyse, s, sq);
      var m := Move(s.selected.value, sq, None);
      && r.history == s.history + [m] && r.board == s.board + [m]
      && r.lastMove == Some(m) && r.selected == None && r.clicks == []
      && r.elo == s.elo && r.engine == s.engine && r.engineCalls == s.engineCalls
  {
  }

  /** An illegal second click leaves board, history, last move and suggestions
      alone and selects the second square instead. */
  lemma IllegalMoveChangesNothing(legal: LegalMoves, analyse: Analyser, s: Snapshot, sq: Square)
    requires Inv(legal, analyse, s) && s.selected.Some?
    requires Move(s.selected.value, sq, None) !in legal(s.board)
    ensures SelectStep(legal, analyse, s, sq) == s.(selected := Some(sq), clicks := [sq])
  {
  }

  /** Undo leaves the state as it is exactly when there is no history to take back. */
  lemma UndoNoOpIffEmpty(legal: LegalMoves, analyse: Analyser, s: Snapshot)
    requires Inv(legal, analyse, s)
    ensures UndoStep(analyse, s) == s <==> s.history == []
  {
    if s.history != [] {
      assert |UndoStep(analyse, s).history| == |s.history| - 1;
    }
  }

  /** Undo with history pops exactly one move off both board and history. */
  lemma UndoPopsOneMove(legal: LegalMoves, analyse: Analyser, s: Snapshot)
    requires Inv(legal, analyse, s) && s.history != []
    ensures var r := UndoStep(analyse, s);
      && r.history + [s.history[|s.history| - 1]] == s.history
      && r == s.(board := r.history, history := r.history, lastMove := LastOf(r.history),
                 bestMoves := Analysis(analyse, s.engine, r.history))
  {
  }

  /** A legal move followed by undo gives back the state before the move,
      except that the selection is cleared. */
  lemma MoveThenUndo(legal: LegalMoves, analyse: Analyser, s: Snapshot, sq: Square)
    requires Inv(legal, analyse, s) && s.selected.Some?
    requires Move(s.selected.value, sq, None) in legal(s.board)
    ensures UndoStep(analyse, SelectStep(legal, analyse, s, sq)) == s.(selected := None, clicks := [])
  {
    var m := Move(s.selected.value, sq, None);
    var r := SelectStep(legal, analyse, s, sq);
    assert r.board[..|r.board| - 1] == s.board;
    assert r.history[..|r.history| - 1] == s.history;
  }

  function UndoTimes(analyse: Analyser, s: Snapshot, k: nat): Snapshot
    requires s.board == s.history
    decreases k
  {
    if k == 0 then s else UndoTimes(analyse, UndoStep(analyse, s), k - 1)
  }

  /** k undos take back the last k moves and touch neither the selection nor the engine. */
  lemma {:induction false} UndoTimesRestoresPrefix(analyse: Analyser, s: Snapshot, k: nat)
    requires s.board == s.history && k <= |s.history|
    ensures var r := UndoTimes(analyse, s, k);
      && r.history == s.history[..|s.history| - k] && r.board == r.history
      && r.selected == s.selected && r.clicks == s.clicks && r.elo == s.elo && r.engine == s.engine
      && r.engineCalls == s.engineCalls
    decreases k
  {
    if k > 0 {
      var t := UndoStep(analyse, s);
      assert t.history == s.history[..|s.history| - 1];
      UndoTimesRestoresPrefix(analyse, t, k - 1);
      assert t.history[..|t.history| - (k - 1)] == s.history[..|s.history| - k];
    }
  }

  /** Any number of undos keeps the invariant. */
  lemma {:induction false} UndoTimesPreservesInv(legal: LegalMoves, analyse: Analyser, s: Snapshot, k: nat)
    requires Inv(legal, analyse, s)
    ensures Inv(legal, analyse, UndoTimes(analyse, s, k))
    decreases k
  {
    if k > 0 {
      UndoPreservesInv(legal, analyse, s);
      UndoTimesPreservesInv(legal, analyse, UndoStep(analyse, s), k - 1);
    }
  }

  /** Restart reaches the same state as pressing undo once for every move played. */
  lemma RestartIsUndoAll(legal: LegalMoves, analyse: Analyser, s: Snapshot)
    requires Inv(legal, analyse, s)
    ensures RestartStep(analyse, s) == UndoTimes(analyse, s, |s.history|)
  {
    UndoTimesRestoresPrefix(analyse, s, |s.history|);
    UndoTimesPreservesInv(legal, analyse, s, |s.history|);
  }

  /** Closing the menu without a pick still quits the engine and starts it
      again on the same weights; the rest of the state is unchanged. */
  lemma EscapeWithoutPickRestartsEngine(legal: LegalMoves, analyse: Analyser, s: Snapshot,
                                        batches: seq<seq<MenuEvent>>, b: nat)
    requires Inv(legal, analyse, s)
    requires b < |batches| && EscapeKey in batches[b]
    requires forall j :: 0 <= j <= b ==> NoButtonClicked(MenuButtons(), batches[j])
    ensures MenuChoice(MenuButtons(), s.elo, batches) == Some(s.elo)
    ensures EscapeStep(analyse, s, batches)
      == Ok(s.(engineCalls := s.engineCalls + [Quit(s.engine)] + StartCalls(s.engine)))
  {
    EscapeKeepsRating(s.elo, batches, b);
    RetierToValidTier(legal, analyse, s, s.elo);
  }

  /** No move the session ever plays involves a1 or a promotion piece. */
  lemma PlayedMovesAreClickBuilt(legal: LegalMoves, analyse: Analyser, s: Snapshot, i: int)
    requires Inv(legal, analyse, s) && 0 <= i < |s.history|
    ensures s.history[i].fromSquare != A1 && s.history[i].toSquare != A1
    ensures s.history[i].promotion == None
  {
  }

  /** The session's state, field by field, as the main function keeps it in
      local variables. */
  class Session {
    const legal: LegalMoves
    const analyse: Analyser
    var board: seq<Move>
    var moveHistory: seq<Move>
    var lastMove: Option<Move>
    var selectedSquare: Option<Square>
    var playerClicks: seq<Square>
    var eloRating: int
    var engine: Engine
    var engineCalls: seq<EngineCall>
    var bestMoves: seq<Suggestion>

    function State(): Snapshot
      reads this
    {
      Snapshot(board, moveHistory, lastMove, selectedSquare, playerClicks, eloRating,
               engine, engineCalls, bestMoves)
    }

    ghost predicate Valid()
      reads this
    {
      Inv(legal, analyse, State())
    }

    constructor (legal: LegalMoves, analyse: Analyser)
      ensures this.legal == legal && this.analyse == analyse
      ensures Valid() && State() == Initial(analyse)
    {
      this.legal := legal;
      this.analyse := analyse;
      board := [];
      moveHistory := [];
      lastMove := None;
      selectedSquare := None;
      playerClicks := [];
      eloRating := DEFAULT_ELO;
      engine := DEFAULT_ENGINE;
      engineCalls := StartCalls(DEFAULT_ENGINE);
      var best := GetBestMoves(analyse(DEFAULT_ENGINE, []));
      bestMoves := best;
      new;
      assert State() == Initial(analyse);
      InitialSatisfiesInv(legal, analyse);
    }

    /** A click on an accepted square. */
    method Select(sq: Square)
      requires Valid() && sq != A1
      modifies this
      ensures Valid()
      ensures State() == SelectStep(legal, analyse, old(State()), sq)
    {
      ghost var s := State();
      SelectPreservesInv(legal, analyse, s, sq);
      if selectedSquare.None? {
        selectedSquare := Some(sq);
        playerClicks := playerClicks + [sq];
        assert State() == s.(selected := Some(sq), clicks := s.clicks + [sq]);
      } else {
        playerClicks := playerClicks + [sq];
        var move := Move(playerClicks[0], playerClicks[1], None);
        assert move == Move(s.selected.value, sq, None);
        if move in legal(board) {
          board := board + [move];
          moveHistory := moveHistory + [move];
          lastMove := Some(move);
          bestMoves := GetBestMoves(analyse(engine, board));
          selectedSquare := None;
          playerClicks := [];
          assert State() == s.(board := s.board + [move], history := s.history + [move], lastMove := Some(move),
                               bestMoves := Analysis(analyse, s.engine, s.board + [move]), selected := None, clicks := []);
        } else {
          playerClicks := [sq];
          selectedSquare := Some(sq);
          assert State() == s.(clicks := [sq], selected := Some(sq));
        }
      }
    }

    method Undo()
      requires Valid()
      modifies this
      ensures Valid()
      ensures State() == UndoStep(analyse, old(State()))
    {
      UndoPreservesInv(legal, analyse, State());
      if moveHistory != [] {
        board := board[..|board| - 1];
        moveHistory := moveHistory[..|moveHistory| - 1];
        lastMove := if moveHistory != [] then Some(moveHistory[|moveHistory| - 1]) else None;
        bestMoves := GetBestMoves(analyse(engine, board));
      }
    }

    method Restart()
      requires Valid()
      modifies this
      ensures Valid()
      ensures State() == RestartStep(analyse, old(State()))
    {
      RestartPreservesInv(legal, analyse, State());
      board := [];
      moveHistory := [];
      lastMove := None;
      bestMoves := GetBestMoves(analyse(engine, board));
    }

    /** The Escape key: the menu, then the engine switch and a new analysis.
        The batches are the events the menu reads before it returns. */
    method Escape(batches: seq<seq<MenuEvent>>)
      requires Valid() && MenuChoice(MenuButtons(), eloRating, batches).Some?
      modifies this
      ensures Valid()
      ensures EscapeStep(analyse, old(State()), batches) == Ok(State())
    {
      ghost var next := EscapeStep(analyse, State(), batches);
      EscapePreservesInv(legal, analyse, State(), batches);
      MenuChoiceIsValid(eloRating, batches);
      var choice := RunEloMenu(eloRating, batches);
      var elo := choice.value;
      var r := SetEngineParameters(engine, elo);
      eloRating := elo;
      engine := r.result.value;
      engineCalls := engineCalls + r.calls;
      bestMoves := GetBestMoves(analyse(engine, board));
      assert next == Ok(State());
    }

    /** A mouse press anywhere in the window. */
    method MouseDown(x: int, y: int)
      requires Valid()
      modifies this
      ensures Valid()
      ensures State() == MouseDownStep(legal, analyse, old(State()), x, y)
    {
      match ClickTargetAt(x, y) {
        case UndoControl =>
          Undo();
        case RestartControl =>
          Restart();
        case BoardClick(square) =>
          var accepted := AcceptedSquare(square);
          if accepted.Some? {
            Select(accepted.value);
          }
      }
    }
  }
}
