/** The tier menu opened with Escape: a grid of nine buttons, one per tier,
    and the event loop that returns the tier clicked, or the current rating
    when the menu is closed without a pick. */
module EloMenu {
  import opened ChessTypes
  import opened BoardGeometry
  import opened EngineTiers

  const BUTTON_WIDTH := 100
  const BUTTON_HEIGHT := 50
  const BUTTON_SPACING := 20
  const BUTTONS_PER_ROW := 5

  datatype Button = Button(rect: Rect, elo: int)

  /** The i-th button: five per row, from (100, 100), one spacing apart. */
  function MenuButton(i: nat): Button
  {
    var x := 100 + (i % BUTTONS_PER_ROW) * (BUTTON_WIDTH + BUTTON_SPACING);
    var y := 100 + (i / BUTTONS_PER_ROW) * (BUTTON_HEIGHT + BUTTON_SPACING);
    Button(Rect(x, y, BUTTON_WIDTH, BUTTON_HEIGHT), TierElo(i))
  }

  function MenuButtons(): seq<Button>
  {
    seq(TIER_COUNT, i requires 0 <= i => MenuButton(i))
  }

  /** Builds the buttons for ratings 1100, 1200, ..., 1900 in that order. */
  method BuildMenuButtons() returns (buttons: seq<Button>)
    ensures |buttons| == TIER_COUNT
    ensures forall i :: 0 <= i < |buttons| ==> buttons[i] == MenuButton(i)
  {
    buttons := [];
    var i, elo := 0, MIN_ELO;
    while elo <= MAX_ELO
      invariant 0 <= i <= TIER_COUNT && elo == TierElo(i)
      invariant |buttons| == i
      invariant forall k :: 0 <= k < i ==> buttons[k] == MenuButton(k)
    {
      var x := 100 + (i % BUTTONS_PER_ROW) * (BUTTON_WIDTH + BUTTON_SPACING);
      var y := 100 + (i / BUTTONS_PER_ROW) * (BUTTON_HEIGHT + BUTTON_SPACING);
      buttons := buttons + [Button(Rect(x, y, BUTTON_WIDTH, BUTTON_HEIGHT), elo)];
      i, elo := i + 1, elo + ELO_STEP;
    }
  }

  /** Every button offers a valid tier, and every valid tier has a button. */
  lemma MenuOffersExactlyTheTiers()
    ensures forall i :: 0 <= i < |MenuButtons()| ==> ValidElo(MenuButtons()[i].elo)
    ensures forall elo :: ValidElo(elo) ==> exists i :: 0 <= i < |MenuButtons()| && MenuButtons()[i].elo == elo
  {
    forall elo | ValidElo(elo)
      ensures exists i :: 0 <= i < |MenuButtons()| && MenuButtons()[i].elo == elo
    {
      ValidEloIsTier(elo);
      var i :| 0 <= i < TIER_COUNT && elo == TierElo(i);
      assert MenuButtons()[i].elo == elo;
    }
  }

  /** No two buttons share a pixel. */
  lemma MenuButtonsDisjoint(i: nat, j: nat)
    requires i < TIER_COUNT && j < TIER_COUNT && i != j
    ensures Disjoint(MenuButton(i).rect, MenuButton(j).rect)
  {
    if i / BUTTONS_PER_ROW == j / BUTTONS_PER_ROW {
      assert i % BUTTONS_PER_ROW != j % BUTTONS_PER_ROW;
    }
  }

  /** Every button lies inside the window. */
  lemma MenuButtonsInWindow(i: nat)
    requires i < TIER_COUNT
    ensures 0 <= MenuButton(i).rect.x && MenuButton(i).rect.x + BUTTON_WIDTH <= WIDTH
    ensures 0 <= MenuButton(i).rect.y && MenuButton(i).rect.y + BUTTON_HEIGHT <= HEIGHT
  {
  }

  // The menu's event loop.

  datatype MenuEvent = EscapeKey | MouseButtonDown(x: int, y: int) | OtherEvent

  /** The rating of the first button under a point, if any. */
  function ButtonHit(buttons: seq<Button>, x: int, y: int): (r: Option<int>)
    ensures r.Some? ==> exists k :: 0 <= k < |buttons| && Contains(buttons[k].rect, x, y) && buttons[k].elo == r.value
                          && forall j :: 0 <= j < k ==> !Contains(buttons[j].rect, x, y)
    ensures r.None? <==> forall k :: 0 <= k < |buttons| ==> !Contains(buttons[k].rect, x, y)
  {
    if buttons == [] then None
    else if Contains(buttons[0].rect, x, y) then Some(buttons[0].elo)
    else
      var rest := ButtonHit(buttons[1..], x, y);
      assert forall k :: 1 <= k < |buttons| ==> buttons[k] == buttons[1..][k - 1];
      assert rest.Some? ==> exists k :: 0 <= k < |buttons| && Contains(buttons[k].rect, x, y) && buttons[k].elo == rest.value
                              && forall j :: 0 <= j < k ==> !Contains(buttons[j].rect, x, y) by {
        if rest.Some? {
          var k :| 0 <= k < |buttons[1..]| && Contains(buttons[1..][k].rect, x, y) && buttons[1..][k].elo == rest.value
                   && forall j :: 0 <= j < k ==> !Contains(buttons[1..][j].rect, x, y);
          assert forall j :: 0 <= j < k + 1 ==> !Contains(buttons[j].rect, x, y) by {
            forall j | 0 <= j < k + 1 ensures !Contains(buttons[j].rect, x, y) {
              if j > 0 { assert buttons[j] == buttons[1..][j - 1]; }
            }
          }
        }
      }
      rest
  }

  /** How one batch of events ends: a button was clicked, or the batch ran
      out with the menu still open (running) or closed by Escape. */
  datatype BatchOutcome = Picked(elo: int) | Continue(running: bool)

  function BatchResult(buttons: seq<Button>, running: bool, events: seq<MenuEvent>): BatchOutcome
  {
    if events == [] then Continue(running)
    else match events[0]
      case EscapeKey => BatchResult(buttons, false, events[1..])
      case MouseButtonDown(x, y) =>
        (match ButtonHit(buttons, x, y)
         case Some(elo) => Picked(elo)
         case None => BatchResult(buttons, running, events[1..]))
      case OtherEvent => BatchResult(buttons, running, events[1..])
  }

  /** The rating the menu returns after reading the given batches, or None when
      it is still open after all of them. */
  function MenuChoice(buttons: seq<Button>, current: int, batches: seq<seq<MenuEvent>>): Option<int>
  {
    if batches == [] then None
    else match BatchResult(buttons, true, batches[0])
      case Picked(elo) => Some(elo)
      case Continue(running) => if running then MenuChoice(buttons, current, batches[1..]) else Some(current)
  }

  /** The for-loop over the buttons: the first one under the point wins. */
  method FindButton(buttons: seq<Button>, x: int, y: int) returns (r: Option<int>)
    ensures r == ButtonHit(buttons, x, y)
  {
    var k := 0;
    while k < |buttons|
      invariant 0 <= k <= |buttons|
      invariant ButtonHit(buttons, x, y) == ButtonHit(buttons[k..], x, y)
    {
      assert buttons[k..][1..] == buttons[k + 1..];
      if Contains(buttons[k].rect, x, y) {
        return Some(buttons[k].elo);
      }
      k := k + 1;
    }
    return None;
  }

  /** The menu loop: read batches while the menu runs; a click on a button
      returns its rating, and a batch that closed the menu returns the
      current rating. */
  method RunEloMenu(current: int, batches: seq<seq<MenuEvent>>) returns (r: Option<int>)
    ensures r == MenuChoice(MenuButtons(), current, batches)
  {
    var buttons := BuildMenuButtons();
    assert buttons == MenuButtons();
    var running := true;
    var b := 0;
    while b < |batches|
      invariant 0 <= b <= |batches| && running
      invariant MenuChoice(buttons, current, batches) == MenuChoice(buttons, current, batches[b..])
    {
      var events := batches[b];
      assert batches[b..][1..] == batches[b + 1..];
      var k := 0;
      while k < |events|
        invariant 0 <= k <= |events|
        invariant BatchResult(buttons, true, events) == BatchResult(buttons, running, events[k..])
      {
        assert events[k..][1..] == events[k + 1..];
        match events[k] {
          case EscapeKey =>
            running := false;
          case MouseButtonDown(x, y) =>
            var hit := FindButton(buttons, x, y);
            if hit.Some? {
              return hit;
            }
          case OtherEvent =>
        }
        k := k + 1;
      }
      if !running {
        return Some(current);
      }
      b := b + 1;
    }
    return None;
  }

  lemma {:induction false} PickedIsAButton(buttons: seq<Button>, running: bool, events: seq<MenuEvent>)
    requires BatchResult(buttons, running, events).Picked?
    ensures exists k :: 0 <= k < |buttons| && buttons[k].elo == BatchResult(buttons, running, events).elo
  {
    match events[0]
    case EscapeKey => PickedIsAButton(buttons, false, events[1..]);
    case MouseButtonDown(x, y) =>
      if ButtonHit(buttons, x, y).None? {
        PickedIsAButton(buttons, running, events[1..]);
      }
    case OtherEvent => PickedIsAButton(buttons, running, events[1..]);
  }

  /** The menu returns either the current rating or the rating of a button,
      so from a valid rating it always returns a valid one. */
  lemma {:induction false} MenuChoiceIsValid(current: int, batches: seq<seq<MenuEvent>>)
    requires ValidElo(current)
    ensures MenuChoice(MenuButtons(), current, batches).Some? ==> ValidElo(MenuChoice(MenuButtons(), current, batches).value)
  {
    if batches != [] {
      var outcome := BatchResult(MenuButtons(), true, batches[0]);
      if outcome.Picked? {
        PickedIsAButton(MenuButtons(), true, batches[0]);
        MenuOffersExactlyTheTiers();
      } else if outcome.running {
        MenuChoiceIsValid(current, batches[1..]);
      }
    }
  }

  predicate NoButtonClicked(buttons: seq<Button>, events: seq<MenuEvent>)
  {
    forall k :: 0 <= k < |events| && events[k].MouseButtonDown? ==> ButtonHit(buttons, events[k].x, events[k].y).None?
  }

  lemma {:induction false} BatchWithoutClick(buttons: seq<Button>, running: bool, events: seq<MenuEvent>)
    requires NoButtonClicked(buttons, events)
    ensures BatchResult(buttons, running, events) == Continue(running && EscapeKey !in events)
  {
    if events != [] {
      assert NoButtonClicked(buttons, events[1..]) by {
        forall k | 0 <= k < |events[1..]| ensures events[1..][k] == events[k + 1] { }
      }
      assert events[0] != EscapeKey ==> (EscapeKey in events <==> EscapeKey in events[1..]);
      match events[0]
      case EscapeKey => BatchWithoutClick(buttons, false, events[1..]);
      case MouseButtonDown(x, y) => BatchWithoutClick(buttons, running, events[1..]);
      case OtherEvent => BatchWithoutClick(buttons, running, events[1..]);
    }
  }

  /** Escaping without a click returns the current rating unchanged, however
      many batches the menu reads before the one holding the Escape. */
  lemma {:induction false} EscapeKeepsRating(current: int, batches: seq<seq<MenuEvent>>, b: nat)
    requires b < |batches| && EscapeKey in batches[b]
    requires forall j :: 0 <= j <= b ==> NoButtonClicked(MenuButtons(), batches[j])
    ensures MenuChoice(MenuButtons(), current, batches) == Some(current)
    decreases b
  {
    BatchWithoutClick(MenuButtons(), true, batches[0]);
    if EscapeKey !in batches[0] {
      assert forall j :: 0 <= j < |batches| - 1 ==> batches[1..][j] == batches[j + 1];
      EscapeKeepsRating(current, batches[1..], b - 1);
    }
  }

  /** Only the i-th button contains a point of the i-th button. */
  lemma HitIsTier(i: nat, x: int, y: int)
    requires i < TIER_COUNT && Contains(MenuButton(i).rect, x, y)
    ensures ButtonHit(MenuButtons(), x, y) == Some(TierElo(i))
  {
    var buttons := MenuButtons();
    var hit := ButtonHit(buttons, x, y);
    assert buttons[i] == MenuButton(i);
    var k :| 0 <= k < |buttons| && Contains(buttons[k].rect, x, y) && buttons[k].elo == hit.value;
    if k != i {
      MenuButtonsDisjoint(i, k);
      DisjointHasNoCommonPoint(MenuButton(i).rect, MenuButton(k).rect, x, y);
    }
  }

  /** A press on a button picks it, whatever came before it in the batch as
      long as no earlier press hit a button; an earlier Escape does not stop it. */
  lemma {:induction false} PressPicks(buttons: seq<Button>, running: bool, pre: seq<MenuEvent>, x: int, y: int, post: seq<MenuEvent>)
    requires NoButtonClicked(buttons, pre) && ButtonHit(buttons, x, y).Some?
    ensures BatchResult(buttons, running, pre + [MouseButtonDown(x, y)] + post) == Picked(ButtonHit(buttons, x, y).value)
    decreases |pre|
  {
    var events := pre + [MouseButtonDown(x, y)] + post;
    if pre != [] {
      assert events[1..] == pre[1..] + [MouseButtonDown(x, y)] + post;
      assert NoButtonClicked(buttons, pre[1..]) by {
        forall k | 0 <= k < |pre[1..]| ensures pre[1..][k] == pre[k + 1] { }
      }
      assert pre[0] == events[0];
      match pre[0]
      case EscapeKey => PressPicks(buttons, false, pre[1..], x, y, post);
      case MouseButtonDown(_, _) => PressPicks(buttons, running, pre[1..], x, y, post);
      case OtherEvent => PressPicks(buttons, running, pre[1..], x, y, post);
    } else {
      assert events[0] == MouseButtonDown(x, y);
    }
  }

  /** A press inside the i-th button returns the i-th tier, after any number
      of batches without a button hit or an Escape, and anywhere in its batch
      after events without a button hit. */
  lemma {:induction false} ClickPicksTier(current: int, i: nat, x: int, y: int, earlier: seq<seq<MenuEvent>>,
                                          pre: seq<MenuEvent>, post: seq<MenuEvent>, laterBatches: seq<seq<MenuEvent>>)
    requires i < TIER_COUNT && Contains(MenuButton(i).rect, x, y)
    requires forall j :: 0 <= j < |earlier| ==> NoButtonClicked(MenuButtons(), earlier[j]) && EscapeKey !in earlier[j]
    requires NoButtonClicked(MenuButtons(), pre)
    ensures MenuChoice(MenuButtons(), current, earlier + [pre + [MouseButtonDown(x, y)] + post] + laterBatches) == Some(TierElo(i))
    decreases |earlier|
  {
    var batches := earlier + [pre + [MouseButtonDown(x, y)] + post] + laterBatches;
    if earlier == [] {
      assert batches[0] == pre + [MouseButtonDown(x, y)] + post;
      HitIsTier(i, x, y);
      PressPicks(MenuButtons(), true, pre, x, y, post);
    } else {
      assert batches[0] == earlier[0];
      BatchWithoutClick(MenuButtons(), true, earlier[0]);
      assert batches[1..] == earlier[1..] + [pre + [MouseButtonDown(x, y)] + post] + laterBatches;
      assert forall j :: 0 <= j < |earlier| - 1 ==> earlier[1..][j] == earlier[j + 1];
      ClickPicksTier(current, i, x, y, earlier[1..], pre, post, laterBatches);
    }
  }
}
