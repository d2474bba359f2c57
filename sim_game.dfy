/** The simulator's game (`simulate_game` in simulate.py): the board check,
    the set-up of decks and per-player tables, and one pass of the turn loop.
    The loop `while winner is None` itself is left to the caller, one
    `Turn` per iteration. */
module SimGame {
  import opened Support
  import opened SimDeck
  import opened SimCards

  /** The parts of the game specification the simulator reads. */
  datatype GameSpec = GameSpec(spaces: seq<string>, goodDeck: seq<SpecEntry>, badDeck: seq<SpecEntry>)

  /** The board check at the top of `simulate_game`, giving `end_index`:
      an empty board fails on `spaces[0]`, and a board must start with
      "start" and end with "end" (so it has at least two spaces). */
  function CheckBoard(spaces: seq<string>): (r: Result<int>)
    ensures r.Ok? <==> |spaces| >= 2 && spaces[0] == "start" && spaces[|spaces| - 1] == "end"
    ensures r.Ok? ==> r.value == |spaces| - 1
    ensures spaces == [] <==> r == Err(NoSpaces)
    ensures r.Err? && spaces != [] ==> r == Err(BadBoard)
  {
    if spaces == [] then Err(NoSpaces)
    else if spaces[0] != "start" || spaces[|spaces| - 1] != "end" then Err(BadBoard)
    else Ok(|spaces| - 1)
  }

  predicate DeckStepsOk(cards: seq<Card>) {
    forall c :: c in cards ==> StepsOk(c)
  }

  predicate SpecStepsOk(spec: seq<SpecEntry>) {
    forall k :: 0 <= k < |spec| ==> StepsOk(CardOf(spec[k]))
  }

  /** A deck dealt from a specification whose entries all have sound step
      parameters holds only such cards. */
  lemma DealtStepsOk(spec: seq<SpecEntry>, cards: seq<Card>)
    requires SpecStepsOk(spec) && DealOrder(cards, spec)
    ensures DeckStepsOk(cards)
  {
    var u := |Unpinned(spec)|;
    forall c | c in cards
      ensures StepsOk(c)
    {
      assert cards == cards[..u] + cards[u..];
      if c in cards[..u] {
        assert c in multiset(cards[..u]);
        assert c in Unpinned(spec);
      }
      SplitMembers(spec, c);
    }
  }

  /** The same cards in another order have the same step parameters. */
  lemma RearrangedStepsOk(before: seq<Card>, after: seq<Card>)
    requires DeckStepsOk(before) && multiset(after) == multiset(before)
    ensures DeckStepsOk(after)
  {
    forall c | c in after
      ensures StepsOk(c)
    {
      assert c in multiset(after);
    }
  }

  /** The per-player tables of `simulate_game` and the loop's two variables. */
  datatype Table = Table(
    positions: seq<int>,
    turnsTaken: seq<int>,
    goodDraws: seq<nat>,
    badDraws: seq<nat>,
    states: seq<Flags>,
    current: nat,
    winner: Option<nat>)

  /** One entry per player in every table, and a current player. */
  predicate Shaped(t: Table, players: nat) {
    && t.current < players
    && |t.positions| == players && |t.turnsTaken| == players
    && |t.goodDraws| == players && |t.badDraws| == players && |t.states| == players
  }

  /** What holds between two passes of the loop: tokens are on the board;
      while nobody has won no token is on the end space and no player holds
      an unspent extra turn; a winner is the current player, on the end space. */
  predicate TableOk(t: Table, players: nat, endIndex: int) {
    && endIndex >= 1
    && Shaped(t, players)
    && (forall i :: 0 <= i < players ==> 0 <= t.positions[i] <= endIndex)
    && (t.winner.None? ==> forall i :: 0 <= i < players ==> t.positions[i] < endIndex && !t.states[i].extraTurn)
    && (t.winner.Some? ==> t.winner.value == t.current && t.positions[t.current] == endIndex)
  }

  /** The tables before the first pass. */
  function InitialTable(players: nat): (t: Table)
    ensures forall endIndex :: endIndex >= 1 && players >= 1 ==> TableOk(t, players, endIndex)
  {
    Table(Repeat(0, players), Repeat(0, players), Repeat(0, players), Repeat(0, players),
          Repeat(NoFlags, players), 0, None)
  }

  /** How the current player's pass ends once the token rests at `pos` with
      flags `flags`: reaching the end wins and breaks out of the loop; an
      extra turn is spent, its turn count is taken back and the same player
      goes again; otherwise play passes to the next player. */
  function EndTurn(t: Table, pos: int, flags: Flags, endIndex: int, players: nat): Table
    requires Shaped(t, players)
  {
    var c := t.current;
    var moved := t.(positions := t.positions[c := pos]);
    if pos >= endIndex then
      moved.(turnsTaken := t.turnsTaken[c := t.turnsTaken[c] + 1], states := t.states[c := flags], winner := Some(c))
    else if flags.extraTurn then
      moved.(states := t.states[c := flags.(extraTurn := false)])
    else
      moved.(turnsTaken := t.turnsTaken[c := t.turnsTaken[c] + 1], states := t.states[c := flags],
             current := (c + 1) % players)
  }

  /** The tables as an exception leaves them: the token on `pos`, the pass counted. */
  function Abandoned(t: Table, pos: int, players: nat): Table
    requires Shaped(t, players)
  {
    t.(positions := t.positions[t.current := pos],
       turnsTaken := t.turnsTaken[t.current := t.turnsTaken[t.current] + 1])
  }

  /** One more card drawn by the current player from the good or the bad deck. */
  function CountDraw(t: Table, good: bool, players: nat): Table
    requires Shaped(t, players)
  {
    if good then t.(goodDraws := t.goodDraws[t.current := t.goodDraws[t.current] + 1])
    else t.(badDraws := t.badDraws[t.current := t.badDraws[t.current] + 1])
  }

  /** The outcome of one pass: the new tables, the exception raised, the card
      drawn, and the deck a draw was attempted from (true for the good deck). */
  datatype Step = Step(table: Table, err: Option<SimError>, drawn: Option<Card>, deckUsed: Option<bool>)

  /** A draw from the good (`good`) or bad deck whose next card is `top`
      (None for an empty deck), then `resolve_card` on the drawn card. */
  function PlayCardStep(t: Table, good: bool, top: Option<Card>, pos: int, spaces: seq<string>,
                        endIndex: int, players: nat, cardDraw: real): Step
    requires Shaped(t, players) && 0 <= pos && endIndex == |spaces| - 1 && 0.0 <= cardDraw < 1.0
  {
    match top
    case None => Step(Abandoned(t, pos, players), Some(EmptyDeck), None, Some(good))
    case Some(card) =>
      var counted := CountDraw(t, good, players);
      var effect := CardEffect(card, pos, endIndex, spaces, cardDraw, t.states[t.current]);
      if effect.Err? then Step(Abandoned(counted, pos, players), Some(effect.error), top, Some(good))
      else Step(EndTurn(counted, effect.value.position, effect.value.state, endIndex, players), None, top, Some(good))
  }

  /** One pass of the `while winner is None` loop for the current player:
      `goodTop` and `badTop` are the cards the two decks would deal next,
      `rollDraw` the die draw and `cardDraw` the draw a card effect uses. */
  function TurnStep(t: Table, spaces: seq<string>, endIndex: int, players: nat,
                    goodTop: Option<Card>, badTop: Option<Card>, rollDraw: real, cardDraw: real): Step
    requires TableOk(t, players, endIndex) && endIndex == |spaces| - 1
    requires 0.0 <= rollDraw < 1.0 && 0.0 <= cardDraw < 1.0
  {
    var c := t.current;
    var flags := t.states[c];
    if flags.skipNext then
      Step(EndTurn(t, t.positions[c], flags.(skipNext := false), endIndex, players), None, None, None)
    else RolledStep(t, spaces, endIndex, players, goodTop, badTop, rollDraw, cardDraw)
  }

  /** A pass without a pending skip: the roll, then the space the token lands on. */
  function RolledStep(t: Table, spaces: seq<string>, endIndex: int, players: nat,
                      goodTop: Option<Card>, badTop: Option<Card>, rollDraw: real, cardDraw: real): Step
    requires TableOk(t, players, endIndex) && endIndex == |spaces| - 1
    requires 0.0 <= rollDraw < 1.0 && 0.0 <= cardDraw < 1.0
  {
    var flags := t.states[t.current];
    var pos := Landed(t, endIndex, rollDraw);
    if pos >= endIndex then Step(EndTurn(t, pos, flags, endIndex, players), None, None, None)
    else if spaces[pos] == "good" then PlayCardStep(t, true, goodTop, pos, spaces, endIndex, players, cardDraw)
    else if spaces[pos] == "bad" && !flags.counterBad then
      PlayCardStep(t, false, badTop, pos, spaces, endIndex, players, cardDraw)
    else if spaces[pos] == "bad" then
      Step(EndTurn(t, pos, flags.(counterBad := false), endIndex, players), None, None, None)
    else Step(EndTurn(t, pos, flags, endIndex, players), None, None, None)
  }

  /** Where the roll puts the current player's token. */
  function Landed(t: Table, endIndex: int, rollDraw: real): int
    requires t.current < |t.positions| && 0.0 <= rollDraw < 1.0
  {
    Min(endIndex, t.positions[t.current] + RollD6(rollDraw))
  }

  lemma EndTurnOk(t: Table, pos: int, flags: Flags, endIndex: int, players: nat)
    requires TableOk(t, players, endIndex) && t.winner.None?
    requires 0 <= pos <= endIndex
    ensures TableOk(EndTurn(t, pos, flags, endIndex, players), players, endIndex)
  {
  }

  lemma PlayCardStepOk(t: Table, good: bool, top: Option<Card>, pos: int, spaces: seq<string>,
                       endIndex: int, players: nat, cardDraw: real)
    requires TableOk(t, players, endIndex) && t.winner.None?
    requires 0 <= pos < endIndex && endIndex == |spaces| - 1 && 0.0 <= cardDraw < 1.0
    requires top.Some? ==> StepsOk(top.value)
    ensures var step := PlayCardStep(t, good, top, pos, spaces, endIndex, players, cardDraw);
            && TableOk(step.table, players, endIndex)
            && (step.err.Some? ==> step.table.winner.None?)
  {
    if top.Some? {
      var counted := CountDraw(t, good, players);
      assert TableOk(counted, players, endIndex);
      var effect := CardEffect(top.value, pos, endIndex, spaces, cardDraw, t.states[t.current]);
      if effect.Ok? {
        EndTurnOk(counted, effect.value.position, effect.value.state, endIndex, players);
      }
    }
  }

  /** A pass keeps the invariant of the tables, provided the decks deal only
      cards with sound step parameters; an exception never leaves a winner. */
  lemma TurnStepKeepsTableOk(t: Table, spaces: seq<string>, endIndex: int, players: nat,
                             goodTop: Option<Card>, badTop: Option<Card>, rollDraw: real, cardDraw: real)
    requires TableOk(t, players, endIndex) && t.winner.None? && endIndex == |spaces| - 1
    requires 0.0 <= rollDraw < 1.0 && 0.0 <= cardDraw < 1.0
    requires goodTop.Some? ==> StepsOk(goodTop.value)
    requires badTop.Some? ==> StepsOk(badTop.value)
    ensures var step := TurnStep(t, spaces, endIndex, players, goodTop, badTop, rollDraw, cardDraw);
            && TableOk(step.table, players, endIndex)
            && (step.err.Some? ==> step.table.winner.None?)
  {
    var flags := t.states[t.current];
    if flags.skipNext {
      EndTurnOk(t, t.positions[t.current], flags.(skipNext := false), endIndex, players);
    } else {
      var pos := Landed(t, endIndex, rollDraw);
      if pos >= endIndex {
        EndTurnOk(t, pos, flags, endIndex, players);
      } else if spaces[pos] == "good" {
        PlayCardStepOk(t, true, goodTop, pos, spaces, endIndex, players, cardDraw);
      } else if spaces[pos] == "bad" && !flags.counterBad {
        PlayCardStepOk(t, false, badTop, pos, spaces, endIndex, players, cardDraw);
      } else if spaces[pos] == "bad" {
        EndTurnOk(t, pos, flags.(counterBad := false), endIndex, players);
      } else {
        EndTurnOk(t, pos, flags, endIndex, players);
      }
    }
  }

  /** `r` differs from `t` at most in the current player's entries. */
  predicate OnlyCurrentChanged(t: Table, r: Table, players: nat)
    requires Shaped(t, players)
  {
    var c := t.current;
    && Shaped(r, players)
    && r.positions == t.positions[c := r.positions[c]]
    && r.turnsTaken == t.turnsTaken[c := r.turnsTaken[c]]
    && r.goodDraws == t.goodDraws[c := r.goodDraws[c]]
    && r.badDraws == t.badDraws[c := r.badDraws[c]]
    && r.states == t.states[c := r.states[c]]
  }

  lemma OnlyCurrentChangedTrans(a: Table, b: Table, r: Table, players: nat)
    requires Shaped(a, players) && Shaped(b, players) && b.current == a.current
    requires OnlyCurrentChanged(a, b, players) && OnlyCurrentChanged(b, r, players)
    ensures OnlyCurrentChanged(a, r, players)
  {
  }

  lemma EndTurnLocal(t: Table, pos: int, flags: Flags, endIndex: int, players: nat)
    requires Shaped(t, players)
    ensures OnlyCurrentChanged(t, EndTurn(t, pos, flags, endIndex, players), players)
  {
  }

  lemma PlayCardStepLocal(t: Table, good: bool, top: Option<Card>, pos: int, spaces: seq<string>,
                          endIndex: int, players: nat, cardDraw: real)
    requires Shaped(t, players) && 0 <= pos && endIndex == |spaces| - 1 && 0.0 <= cardDraw < 1.0
    ensures OnlyCurrentChanged(t, PlayCardStep(t, good, top, pos, spaces, endIndex, players, cardDraw).table, players)
  {
    if top.Some? {
      var counted := CountDraw(t, good, players);
      var effect := CardEffect(top.value, pos, endIndex, spaces, cardDraw, t.states[t.current]);
      if effect.Ok? {
        EndTurnLocal(counted, effect.value.position, effect.value.state, endIndex, players);
        OnlyCurrentChangedTrans(t, counted, EndTurn(counted, effect.value.position, effect.value.state, endIndex, players), players);
      }
    }
  }

  /** A pass changes only the current player's entries in every table. */
  lemma TurnStepTouchesCurrentOnly(t: Table, spaces: seq<string>, endIndex: int, players: nat,
                                   goodTop: Option<Card>, badTop: Option<Card>, rollDraw: real, cardDraw: real)
    requires TableOk(t, players, endIndex) && endIndex == |spaces| - 1
    requires 0.0 <= rollDraw < 1.0 && 0.0 <= cardDraw < 1.0
    ensures OnlyCurrentChanged(t, TurnStep(t, spaces, endIndex, players, goodTop, badTop, rollDraw, cardDraw).table, players)
  {
    var flags := t.states[t.current];
    if flags.skipNext {
      EndTurnLocal(t, t.positions[t.current], flags.(skipNext := false), endIndex, players);
    } else {
      var pos := Landed(t, endIndex, rollDraw);
      if pos >= endIndex {
        EndTurnLocal(t, pos, flags, endIndex, players);
      } else if spaces[pos] == "good" {
        PlayCardStepLocal(t, true, goodTop, pos, spaces, endIndex, players, cardDraw);
      } else if spaces[pos] == "bad" && !flags.counterBad {
        PlayCardStepLocal(t, false, badTop, pos, spaces, endIndex, players, cardDraw);
      } else if spaces[pos] == "bad" {
        EndTurnLocal(t, pos, flags.(counterBad := false), endIndex, players);
      } else {
        EndTurnLocal(t, pos, flags, endIndex, players);
      }
    }
  }

  /** A player who must skip clears the flag, does not move, draws nothing,
      and play passes on. */
  lemma SkippedTurn(t: Table, spaces: seq<string>, endIndex: int, players: nat,
                    goodTop: Option<Card>, badTop: Option<Card>, rollDraw: real, cardDraw: real)
    requires TableOk(t, players, endIndex) && t.winner.None? && endIndex == |spaces| - 1
    requires 0.0 <= rollDraw < 1.0 && 0.0 <= cardDraw < 1.0
    requires t.states[t.current].skipNext
    ensures var step := TurnStep(t, spaces, endIndex, players, goodTop, badTop, rollDraw, cardDraw);
            var c := t.current;
            && step.err.None? && step.drawn.None? && step.deckUsed.None?
            && step.table.positions == t.positions
            && step.table.goodDraws == t.goodDraws && step.table.badDraws == t.badDraws
            && step.table.states[c] == t.states[c].(skipNext := false)
            && step.table.turnsTaken[c] == t.turnsTaken[c] + 1
            && step.table.current == (c + 1) % players && step.table.winner.None?
  {
    assert t.positions[t.current := t.positions[t.current]] == t.positions;
  }

  /** A player with the shield who lands on a bad space spends the shield
      instead of drawing: no bad card is drawn or counted. */
  lemma ShieldSpent(t: Table, spaces: seq<string>, endIndex: int, players: nat,
                    goodTop: Option<Card>, badTop: Option<Card>, rollDraw: real, cardDraw: real)
    requires TableOk(t, players, endIndex) && t.winner.None? && endIndex == |spaces| - 1
    requires 0.0 <= rollDraw < 1.0 && 0.0 <= cardDraw < 1.0
    requires !t.states[t.current].skipNext && t.states[t.current].counterBad
    requires Landed(t, endIndex, rollDraw) < endIndex && spaces[Landed(t, endIndex, rollDraw)] == "bad"
    ensures var step := TurnStep(t, spaces, endIndex, players, goodTop, badTop, rollDraw, cardDraw);
            var c := t.current;
            && step.err.None? && step.drawn.None? && step.deckUsed.None?
            && step.table.badDraws == t.badDraws && step.table.goodDraws == t.goodDraws
            && step.table.positions[c] == Landed(t, endIndex, rollDraw)
            && step.table.states[c] == t.states[c].(counterBad := false)
            && step.table.current == (c + 1) % players
  {
  }

  /** A winner is declared exactly when the current player's token reaches
      the end space, by the roll or by the card, and then the loop stops on
      that player. */
  lemma WinnerExactlyAtEnd(t: Table, spaces: seq<string>, endIndex: int, players: nat,
                           goodTop: Option<Card>, badTop: Option<Card>, rollDraw: real, cardDraw: real)
    requires TableOk(t, players, endIndex) && t.winner.None? && endIndex == |spaces| - 1
    requires 0.0 <= rollDraw < 1.0 && 0.0 <= cardDraw < 1.0
    requires goodTop.Some? ==> StepsOk(goodTop.value)
    requires badTop.Some? ==> StepsOk(badTop.value)
    ensures var step := TurnStep(t, spaces, endIndex, players, goodTop, badTop, rollDraw, cardDraw);
            var c := t.current;
            && (step.table.winner.Some? <==> step.table.positions[c] == endIndex)
            && (step.table.winner.Some? ==> step.table.winner == Some(c) && step.table.current == c && step.err.None?)
            && (Landed(t, endIndex, rollDraw) == endIndex && !t.states[c].skipNext ==>
                  step.table.winner == Some(c) && step.drawn.None?)
  {
    TurnStepKeepsTableOk(t, spaces, endIndex, players, goodTop, badTop, rollDraw, cardDraw);
  }

  /** How `EndTurn` hands on play when the token is short of the end. */
  lemma EndTurnHandsOn(t: Table, pos: int, flags: Flags, endIndex: int, players: nat)
    requires Shaped(t, players) && pos < endIndex
    ensures var r := EndTurn(t, pos, flags, endIndex, players);
            var c := t.current;
            && r.winner == t.winner && !r.states[c].extraTurn
            && (flags.extraTurn ==> r.current == c && r.turnsTaken[c] == t.turnsTaken[c])
            && (!flags.extraTurn ==> r.current == (c + 1) % players && r.turnsTaken[c] == t.turnsTaken[c] + 1)
  {
  }

  /** Only an `extra_turn` card grants an extra turn. */
  lemma ExtraTurnOnlyFromCard(card: Card, pos: int, endIndex: int, spaces: seq<string>, u: real, flags: Flags)
    requires 0.0 <= u < 1.0 && 0 <= pos && endIndex == |spaces| - 1 && !flags.extraTurn
    ensures var effect := CardEffect(card, pos, endIndex, spaces, u, flags);
            effect.Ok? ==> (effect.value.state.extraTurn <==> card.cardId == "extra_turn")
  {
  }

  lemma PlayCardStepHandsOn(t: Table, good: bool, top: Option<Card>, pos: int, spaces: seq<string>,
                            endIndex: int, players: nat, cardDraw: real)
    requires Shaped(t, players) && t.winner.None? && !t.states[t.current].extraTurn
    requires 0 <= pos && endIndex == |spaces| - 1 && 0.0 <= cardDraw < 1.0
    ensures var step := PlayCardStep(t, good, top, pos, spaces, endIndex, players, cardDraw);
            var c := t.current;
            var extra := step.drawn.Some? && step.drawn.value.cardId == "extra_turn";
            step.err.None? && step.table.winner.None? ==>
              && !step.table.states[c].extraTurn
              && (extra ==> step.table.current == c && step.table.turnsTaken[c] == t.turnsTaken[c])
              && (!extra ==> step.table.current == (c + 1) % players && step.table.turnsTaken[c] == t.turnsTaken[c] + 1)
  {
    if top.Some? {
      var counted := CountDraw(t, good, players);
      var effect := CardEffect(top.value, pos, endIndex, spaces, cardDraw, t.states[t.current]);
      ExtraTurnOnlyFromCard(top.value, pos, endIndex, spaces, cardDraw, t.states[t.current]);
      if effect.Ok? && effect.value.position < endIndex {
        EndTurnHandsOn(counted, effect.value.position, effect.value.state, endIndex, players);
      }
    }
  }

  /** Play stays with the same player exactly when the pass resolved an
      `extra_turn` card; that pass does not count as a turn and leaves no
      extra turn behind. Every other pass that ends without a winner or an
      exception counts one turn and hands play to the next player. */
  lemma ExtraTurnReplays(t: Table, spaces: seq<string>, endIndex: int, players: nat,
                         goodTop: Option<Card>, badTop: Option<Card>, rollDraw: real, cardDraw: real)
    requires TableOk(t, players, endIndex) && t.winner.None? && endIndex == |spaces| - 1
    requires 0.0 <= rollDraw < 1.0 && 0.0 <= cardDraw < 1.0
    ensures var step := TurnStep(t, spaces, endIndex, players, goodTop, badTop, rollDraw, cardDraw);
            var c := t.current;
            var extra := step.drawn.Some? && step.drawn.value.cardId == "extra_turn";
            step.err.None? && step.table.winner.None? ==>
              && !step.table.states[c].extraTurn
              && (extra ==> step.table.current == c && step.table.turnsTaken[c] == t.turnsTaken[c])
              && (!extra ==> step.table.current == (c + 1) % players && step.table.turnsTaken[c] == t.turnsTaken[c] + 1)
  {
    var flags := t.states[t.current];
    assert !flags.extraTurn;
    if flags.skipNext {
      EndTurnHandsOn(t, t.positions[t.current], flags.(skipNext := false), endIndex, players);
    } else {
      var pos := Landed(t, endIndex, rollDraw);
      if pos >= endIndex {
      } else if spaces[pos] == "good" {
        PlayCardStepHandsOn(t, true, goodTop, pos, spaces, endIndex, players, cardDraw);
      } else if spaces[pos] == "bad" && !flags.counterBad {
        PlayCardStepHandsOn(t, false, badTop, pos, spaces, endIndex, players, cardDraw);
      } else if spaces[pos] == "bad" {
        EndTurnHandsOn(t, pos, flags.(counterBad := false), endIndex, players);
      } else {
        EndTurnHandsOn(t, pos, flags, endIndex, players);
      }
    }
  }

  /** Each counter of draws goes up by one exactly when the pass drew a card
      from that deck. */
  lemma DrawsCounted(t: Table, spaces: seq<string>, endIndex: int, players: nat,
                     goodTop: Option<Card>, badTop: Option<Card>, rollDraw: real, cardDraw: real)
    requires TableOk(t, players, endIndex) && t.winner.None? && endIndex == |spaces| - 1
    requires 0.0 <= rollDraw < 1.0 && 0.0 <= cardDraw < 1.0
    ensures var step := TurnStep(t, spaces, endIndex, players, goodTop, badTop, rollDraw, cardDraw);
            var c := t.current;
            && step.table.goodDraws[c] == t.goodDraws[c] + (if step.drawn.Some? && step.deckUsed == Some(true) then 1 else 0)
            && step.table.badDraws[c] == t.badDraws[c] + (if step.drawn.Some? && step.deckUsed == Some(false) then 1 else 0)
            && (step.drawn.Some? ==> step.deckUsed.Some?)
            && (step.deckUsed == Some(true) ==> step.drawn == goodTop)
            && (step.deckUsed == Some(false) ==> step.drawn == badTop)
  {
  }

  /** The card a deck deals next. */
  function Top(deck: Deck): (top: Option<Card>)
    reads deck
    requires deck.Valid()
    ensures top.Some? <==> deck.cards != []
  {
    if deck.cards == [] then None else Some(deck.cards[deck.index])
  }

  class Simulation {
    const spaces: seq<string>
    const endIndex: int
    const players: nat
    const goodDeck: Deck
    const badDeck: Deck
    var positions: seq<int>
    var turnsTaken: seq<int>
    var goodDraws: seq<nat>
    var badDraws: seq<nat>
    var states: seq<Flags>
    var current: nat
    var winner: Option<nat>

    function Tables(): Table
      reads this
    {
      Table(positions, turnsTaken, goodDraws, badDraws, states, current, winner)
    }

    /** The tables keep their invariant; the two decks are distinct, each
        with its index on a card, and deal only cards with sound steps. */
    ghost predicate Valid()
      reads this, goodDeck, badDeck
    {
      && endIndex == |spaces| - 1
      && TableOk(Tables(), players, endIndex)
      && goodDeck != badDeck && goodDeck.Valid() && badDeck.Valid()
      && DeckStepsOk(goodDeck.cards) && DeckStepsOk(badDeck.cards)
    }

    /** The tables `simulate_game` sets up before its loop. */
    constructor (spaces: seq<string>, players: nat, goodDeck: Deck, badDeck: Deck)
      requires |spaces| >= 2 && players >= 1
      requires goodDeck != badDeck && goodDeck.Valid() && badDeck.Valid()
      requires DeckStepsOk(goodDeck.cards) && DeckStepsOk(badDeck.cards)
      ensures Valid()
      ensures this.spaces == spaces && endIndex == |spaces| - 1 && this.players == players
      ensures this.goodDeck == goodDeck && this.badDeck == badDeck
      ensures Tables() == InitialTable(players)
    {
      this.spaces := spaces;
      endIndex := |spaces| - 1;
      this.players := players;
      this.goodDeck := goodDeck;
      this.badDeck := badDeck;
      positions := Repeat(0, players);
      turnsTaken := Repeat(0, players);
      goodDraws := Repeat(0, players);
      badDraws := Repeat(0, players);
      states := Repeat(NoFlags, players);
      current := 0;
      winner := None;
    }

    /** Everything `simulate_game` does before its loop: the board check,
        both decks dealt by `Deck.from_spec`, and the per-player tables
        (whose first lookup fails when there are no players). */
    static method Start(spec: GameSpec, players: int) returns (r: Result<Simulation>)
      requires SpecStepsOk(spec.goodDeck) && SpecStepsOk(spec.badDeck)
      ensures CheckBoard(spec.spaces).Err? ==> r == Err(CheckBoard(spec.spaces).error)
      ensures CheckBoard(spec.spaces).Ok? && players < 1 ==> r == Err(NoPlayers)
      ensures CheckBoard(spec.spaces).Ok? && players >= 1 ==> r.Ok?
      ensures r.Ok? ==>
                && fresh(r.value) && fresh(r.value.goodDeck) && fresh(r.value.badDeck)
                && r.value.Valid()
                && r.value.spaces == spec.spaces && r.value.players == players
                && r.value.goodDeck.index == 0 && r.value.badDeck.index == 0
                && DealOrder(r.value.goodDeck.cards, spec.goodDeck)
                && DealOrder(r.value.badDeck.cards, spec.badDeck)
                && r.value.Tables() == InitialTable(players)
    {
      var board := CheckBoard(spec.spaces);
      if board.Err? {
        return Err(board.error);
      }
      var good := Deck.FromSpec(spec.goodDeck);
      var bad := Deck.FromSpec(spec.badDeck);
      if players < 1 {
        return Err(NoPlayers);
      }
      DealtStepsOk(spec.goodDeck, good.cards);
      DealtStepsOk(spec.badDeck, bad.cards);
      var sim := new Simulation(spec.spaces, players, good, bad);
      r := Ok(sim);
    }

    /** The bookkeeping after the token has come to rest (see `EndTurn`);
        an extra turn leaves the turn count alone, which `simulate_game`
        reaches by adding one and subtracting it again. */
    method Finish(pos: int, flags: Flags)
      requires Shaped(Tables(), players)
      modifies this`positions, this`states, this`turnsTaken, this`current, this`winner
      ensures Tables() == EndTurn(old(Tables()), pos, flags, endIndex, players)
    {
      var c := current;
      var turns := turnsTaken[c];
      positions := positions[c := pos];
      if pos >= endIndex {
        turnsTaken := turnsTaken[c := turns + 1];
        states := states[c := flags];
        winner := Some(c);
      } else if flags.extraTurn {
        states := states[c := flags.(extraTurn := false)];
      } else {
        turnsTaken := turnsTaken[c := turns + 1];
        states := states[c := flags];
        current := (c + 1) % players;
      }
    }

    /** The tables as an exception leaves them. */
    method Abandon(pos: int)
      requires Shaped(Tables(), players)
      modifies this`positions, this`turnsTaken
      ensures Tables() == Abandoned(old(Tables()), pos, players)
    {
      positions := positions[current := pos];
      turnsTaken := turnsTaken[current := turnsTaken[current] + 1];
    }

    /** `good_deck.draw()` or `bad_deck.draw()`, and on success one more
        draw counted for the current player. */
    method DrawFor(good: bool) returns (card: Result<Card>)
      requires Shaped(Tables(), players) && goodDeck.Valid() && badDeck.Valid()
      modifies this`goodDraws, this`badDraws, if good then goodDeck else badDeck
      ensures var deck := if good then goodDeck else badDeck;
              && deck.Valid()
              && multiset(deck.cards) == old(multiset(deck.cards))
              && (old(deck.cards) == [] ==> card == Err(EmptyDeck))
              && (old(deck.cards) != [] ==> card == Ok(old(deck.cards[deck.index])))
              && Advanced(old(deck.cards), old(deck.index), deck.cards, deck.index)
      ensures card.Ok? ==> Tables() == CountDraw(old(Tables()), good, players)
      ensures card.Err? ==> Tables() == old(Tables())
    {
      var deck := if good then goodDeck else badDeck;
      card := deck.Draw();
      if card.Ok? {
        if good {
          goodDraws := goodDraws[current := goodDraws[current] + 1];
        } else {
          badDraws := badDraws[current := badDraws[current] + 1];
        }
      }
    }

    /** A good (`good`) or bad space at `pos`: draw one card from that deck,
        count the draw and resolve the card. */
    method PlayCard(good: bool, pos: int, cardDraw: real) returns (err: Option<SimError>, drawn: Option<Card>)
      requires Shaped(Tables(), players) && goodDeck.Valid() && badDeck.Valid()
      requires 0 <= pos && endIndex == |spaces| - 1 && 0.0 <= cardDraw < 1.0
      modifies this`positions, this`states, this`turnsTaken, this`current, this`winner
      modifies this`goodDraws, this`badDraws, if good then goodDeck else badDeck
      ensures var deck := if good then goodDeck else badDeck;
              && deck.Valid() && multiset(deck.cards) == old(multiset(deck.cards))
              && Advanced(old(deck.cards), old(deck.index), deck.cards, deck.index)
      ensures var step := PlayCardStep(old(Tables()), good, old(Top(if good then goodDeck else badDeck)),
                                       pos, spaces, endIndex, players, cardDraw);
              Tables() == step.table && err == step.err && drawn == step.drawn
    {
      var state := states[current];
      var card := DrawFor(good);
      if card.Err? {
        Abandon(pos);
        return Some(card.error), None;
      }
      drawn := Some(card.value);
      var res := ResolveCard(card.value, pos, endIndex, spaces, cardDraw, state);
      if res.Err? {
        Abandon(pos);
        return Some(res.error), drawn;
      }
      Finish(res.value.position, res.value.state);
      err := None;
    }

    /** The rolled part of a pass: the die, the win check, and the space. */
    method Roll(rollDraw: real, cardDraw: real) returns (err: Option<SimError>, drawn: Option<Card>)
      requires TableOk(Tables(), players, endIndex) && endIndex == |spaces| - 1
      requires goodDeck != badDeck && goodDeck.Valid() && badDeck.Valid()
      requires 0.0 <= rollDraw < 1.0 && 0.0 <= cardDraw < 1.0
      modifies this`positions, this`states, this`turnsTaken, this`current, this`winner
      modifies this`goodDraws, this`badDraws, goodDeck, badDeck
      ensures goodDeck.Valid() && badDeck.Valid()
      ensures var step := RolledStep(old(Tables()), spaces, endIndex, players,
                                     old(Top(goodDeck)), old(Top(badDeck)), rollDraw, cardDraw);
              && Tables() == step.table && err == step.err && drawn == step.drawn
              && (step.deckUsed != Some(true) ==> unchanged(goodDeck))
              && (step.deckUsed != Some(false) ==> unchanged(badDeck))
              && (step.deckUsed == Some(true) ==>
                    Advanced(old(goodDeck.cards), old(goodDeck.index), goodDeck.cards, goodDeck.index))
              && (step.deckUsed == Some(false) ==>
                    Advanced(old(badDeck.cards), old(badDeck.index), badDeck.cards, badDeck.index))
      ensures multiset(goodDeck.cards) == old(multiset(goodDeck.cards))
      ensures multiset(badDeck.cards) == old(multiset(badDeck.cards))
    {
      ghost var t0, goodTop, badTop := Tables(), Top(goodDeck), Top(badDeck);
      ghost var step := RolledStep(t0, spaces, endIndex, players, goodTop, badTop, rollDraw, cardDraw);
      var state := states[current];
      err, drawn := None, None;
      var pos := Landed(Tables(), endIndex, rollDraw);
      if pos >= endIndex {
        assert step == Step(EndTurn(t0, pos, state, endIndex, players), None, None, None);
        Finish(pos, state);
        return;
      }
      var space := spaces[pos];
      if space == "good" {
        assert step == PlayCardStep(t0, true, goodTop, pos, spaces, endIndex, players, cardDraw);
        err, drawn := PlayCard(true, pos, cardDraw);
      } else if space == "bad" && !state.counterBad {
        assert step == PlayCardStep(t0, false, badTop, pos, spaces, endIndex, players, cardDraw);
        err, drawn := PlayCard(false, pos, cardDraw);
      } else if space == "bad" {
        assert step == Step(EndTurn(t0, pos, state.(counterBad := false), endIndex, players), None, None, None);
        Finish(pos, state.(counterBad := false));
      } else {
        assert step == Step(EndTurn(t0, pos, state, endIndex, players), None, None, None);
        Finish(pos, state);
      }
    }

    /** One pass of the `while winner is None` loop for the current player:
        `rollDraw` is the die draw and `cardDraw` the draw a card effect
        uses; `err` is the exception the pass raises, `drawn` the card it
        drew. The decks only change by a draw. */
    method Turn(rollDraw: real, cardDraw: real) returns (err: Option<SimError>, drawn: Option<Card>)
      requires Valid() && winner.None?
      requires 0.0 <= rollDraw < 1.0 && 0.0 <= cardDraw < 1.0
      modifies this, goodDeck, badDeck
      ensures Valid()
      ensures var step := TurnStep(old(Tables()), spaces, endIndex, players,
                                   old(Top(goodDeck)), old(Top(badDeck)), rollDraw, cardDraw);
              && Tables() == step.table && err == step.err && drawn == step.drawn
              && (step.deckUsed != Some(true) ==> unchanged(goodDeck))
              && (step.deckUsed != Some(false) ==> unchanged(badDeck))
              && (step.deckUsed == Some(true) ==>
                    Advanced(old(goodDeck.cards), old(goodDeck.index), goodDeck.cards, goodDeck.index))
              && (step.deckUsed == Some(false) ==>
                    Advanced(old(badDeck.cards), old(badDeck.index), badDeck.cards, badDeck.index))
      ensures multiset(goodDeck.cards) == old(multiset(goodDeck.cards))
      ensures multiset(badDeck.cards) == old(multiset(badDeck.cards))
    {
      TurnStepKeepsTableOk(Tables(), spaces, endIndex, players, Top(goodDeck), Top(badDeck), rollDraw, cardDraw);
      var state := states[current];
      if state.skipNext {
        Finish(positions[current], state.(skipNext := false));
        err, drawn := None, None;
      } else {
        err, drawn := Roll(rollDraw, cardDraw);
      }
      RearrangedStepsOk(old(goodDeck.cards), goodDeck.cards);
      RearrangedStepsOk(old(badDeck.cards), badDeck.cards);
    }
  }
}
