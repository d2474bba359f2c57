/** The browser turn engine (public/game.js, inside `createGame`): the game
    state, a roll (`handleRoll`), what the landing space does
    (`resolveSpace`), what a drawn card does (`applyCardEffect`) and the
    stepwise move (`moveToIndex`). Animation, the DOM and the awaits on
    them are left out; each await becomes a plain call. */
module BrowserEngine {
  import opened Support
  import opened BrowserDeck
  import opened BrowserText

  /** A card whose effect reads `params.steps` carries a non-negative one. */
  predicate CardOk(card: Card) {
    (card.id == "jump_forward" || card.id == "go_back") ==> "steps" in card.params && card.params["steps"] >= 0
  }

  predicate DeckOk(cards: seq<Card>) {
    forall c :: c in cards ==> CardOk(c)
  }

  /** `Math.min(currentIndex + roll, totalSpaces - 1)`: the roll's target,
      clamped to the last space. */
  function RollTarget(current: int, roll: int, totalSpaces: int): (t: int)
    ensures t <= totalSpaces - 1 && t <= current + roll
    ensures t == totalSpaces - 1 || t == current + roll
  {
    Min(current + roll, totalSpaces - 1)
  }

  predicate IsMovingEffect(id: string) {
    id == "go_to_end" || id == "go_to_start" || id == "roll_forward" || id == "jump_forward" || id == "go_back"
  }

  /** The index `applyCardEffect` moves to, `bonus` being the die of a
      `roll_forward` card; cards that do not move leave it where it is. */
  function EffectIndex(card: Card, current: int, totalSpaces: int, bonus: int): (t: int)
    requires CardOk(card)
    ensures card.id == "go_to_end" ==> t == totalSpaces - 1
    ensures card.id == "go_to_start" ==> t == 0
    ensures card.id == "roll_forward" ==>
              t <= totalSpaces - 1 && t <= current + bonus && (t == totalSpaces - 1 || t == current + bonus)
    ensures card.id == "jump_forward" ==>
              var steps := card.params["steps"];
              t <= totalSpaces - 1 && t <= current + steps && (t == totalSpaces - 1 || t == current + steps)
    ensures card.id == "go_back" ==>
              var steps := card.params["steps"];
              t >= 0 && t >= current - steps && (t == 0 || t == current - steps)
    ensures !IsMovingEffect(card.id) ==> t == current
    ensures 0 <= current <= totalSpaces - 1 && bonus >= 0 ==> 0 <= t <= totalSpaces - 1
  {
    if card.id == "go_to_end" then totalSpaces - 1
    else if card.id == "go_to_start" then 0
    else if card.id == "roll_forward" then Min(current + bonus, totalSpaces - 1)
    else if card.id == "jump_forward" then Min(current + card.params["steps"], totalSpaces - 1)
    else if card.id == "go_back" then Max(current - card.params["steps"], 0)
    else current
  }

  /** The cards after which `applyCardEffect` declares a win. */
  predicate EffectWins(id: string, newIndex: int, totalSpaces: int) {
    id == "go_to_end" || ((id == "roll_forward" || id == "jump_forward") && newIndex >= totalSpaces - 1)
  }

  function Distance(from: int, to: int): nat {
    if to >= from then to - from else from - to
  }

  /** The k-th index visited on the way from `from` to `to`. */
  function StepAt(from: int, to: int, k: int): int {
    if to > from then from + k + 1 else from - k - 1
  }

  /** The indices a move visits, one space at a time, from the neighbour of
      `from` up to and including `to`. */
  function Path(from: int, to: int): (p: seq<int>)
    ensures |p| == Distance(from, to)
    ensures from != to ==> p[|p| - 1] == to
    ensures forall k :: 0 <= k < |p| ==> Min(from, to) <= p[k] <= Max(from, to) && p[k] != from
    ensures forall k :: 0 < k < |p| ==> Distance(p[k - 1], p[k]) == 1
    ensures forall k :: 0 <= k < |p| ==> Distance(from, p[k]) == k + 1
  {
    seq(Distance(from, to), k => StepAt(from, to, k))
  }

  /** The step list `moveToIndex` builds in its loop. */
  method StepList(current: int, target: int) returns (steps: seq<int>)
    ensures steps == Path(current, target)
  {
    steps := [];
    var direction := if target > current then 1 else -1;
    var i := current + direction;
    while if direction > 0 then i <= target else i >= target
      invariant |steps| <= Distance(current, target)
      invariant i == StepAt(current, target, |steps|)
      invariant forall k :: 0 <= k < |steps| ==> steps[k] == StepAt(current, target, k)
      decreases Distance(current, target) - |steps|
    {
      steps := steps + [i];
      i := i + direction;
    }
  }

  datatype SpaceOutcome =
    | Arrived        // on the last space: the game is won
    | SteadyProgress // not a good or bad space: no card
    | DeckExhausted  // the deck had no card at all; the source throws here
    | CardPlayed(card: Card, text: CardText, summary: string, path: seq<int>, won: bool)

  datatype TurnReport =
    | TurnSkipped
    | Rolled(roll: int, path: seq<int>, outcome: SpaceOutcome)
  {
    predicate Won() {
      Rolled? && (outcome.Arrived? || (outcome.CardPlayed? && outcome.won))
    }
  }

  /** What resolving a space of type `spaceType` does to the good and the bad
      pile (`pile` being the pile the card was dealt from): a played card
      was drawn from the deck of the space's type and the other pile is
      kept; an outcome without a card keeps both piles. */
  ghost predicate PilesAfter(outcome: SpaceOutcome, spaceType: string, pile: seq<Card>,
                             goodOriginal: seq<Card>, goodBefore: seq<Card>, goodAfter: seq<Card>,
                             badOriginal: seq<Card>, badBefore: seq<Card>, badAfter: seq<Card>)
  {
    if !outcome.CardPlayed? then goodAfter == goodBefore && badAfter == badBefore
    else if spaceType == "good" then
      badAfter == badBefore && DrewFrom(goodBefore, goodOriginal, pile, outcome.card, goodAfter)
    else
      spaceType == "bad" && goodAfter == goodBefore && DrewFrom(badBefore, badOriginal, pile, outcome.card, badAfter)
  }

  /** `gameState`, with its two deck states. */
  class GameState {
    const cards: TextTable
    const boardSpaces: seq<string>
    const totalSpaces: int
    var currentIndex: int
    var turnCount: nat
    var lastRoll: Option<int>
    var skipNextTurn: bool
    var extraTurn: bool  // set once to false and never consulted
    const goodDeck: DeckState
    const badDeck: DeckState

    ghost predicate Valid()
      reads this, goodDeck, badDeck
    {
      && totalSpaces == |boardSpaces| >= 1
      && 0 <= currentIndex <= totalSpaces - 1
      && goodDeck != badDeck
      && goodDeck.Valid() && badDeck.Valid()
      && DeckOk(goodDeck.original) && DeckOk(badDeck.original)
    }

    /** The state `createGame` sets up: token on space 0, no turns, each
        deck built from its specification and its pile a shuffled copy. */
    constructor (cards: TextTable, boardSpaces: seq<string>, goodSpec: seq<SpecEntry>, badSpec: seq<SpecEntry>)
      requires |boardSpaces| >= 1
      requires DeckOk(Expand(goodSpec)) && DeckOk(Expand(badSpec))
      ensures Valid()
      ensures this.cards == cards && this.boardSpaces == boardSpaces
      ensures currentIndex == 0 && turnCount == 0 && lastRoll == None && !skipNextTurn && !extraTurn
      ensures fresh(goodDeck) && fresh(badDeck)
      ensures goodDeck.original == Expand(goodSpec) && multiset(goodDeck.deck) == multiset(goodDeck.original)
      ensures badDeck.original == Expand(badSpec) && multiset(badDeck.deck) == multiset(badDeck.original)
    {
      var goodCards := BuildDeck(goodSpec);
      var badCards := BuildDeck(badSpec);
      var good := new DeckState(goodCards);
      var bad := new DeckState(badCards);
      good.deck := ShuffledCopy(good.original);
      bad.deck := ShuffledCopy(bad.original);
      this.cards := cards;
      this.boardSpaces := boardSpaces;
      totalSpaces := |boardSpaces|;
      currentIndex := 0;
      turnCount := 0;
      lastRoll := None;
      skipNextTurn := false;
      extraTurn := false;
      goodDeck := good;
      badDeck := bad;
    }

    /** `moveToIndex(targetIndex)`: the steps it animates, then the new index. */
    method MoveToIndex(targetIndex: int) returns (steps: seq<int>)
      modifies this`currentIndex
      ensures currentIndex == targetIndex
      ensures steps == Path(old(currentIndex), targetIndex)
    {
      if targetIndex == currentIndex {
        steps := [];
        return;
      }
      steps := StepList(currentIndex, targetIndex);
      currentIndex := targetIndex;
    }

    /** `applyCardEffect(card)`, `bonusDraw` being the draw behind the
        extra die of `roll_forward`. */
    method ApplyCardEffect(card: Card, bonusDraw: real) returns (won: bool, path: seq<int>)
      requires Valid() && CardOk(card)
      requires 0.0 <= bonusDraw < 1.0
      modifies this`currentIndex, this`skipNextTurn
      ensures Valid()
      ensures currentIndex == EffectIndex(card, old(currentIndex), totalSpaces, RollD6(bonusDraw))
      ensures path == Path(old(currentIndex), currentIndex)
      ensures skipNextTurn == (old(skipNextTurn) || card.id == "lose_turn")
      ensures won == EffectWins(card.id, currentIndex, totalSpaces)
      ensures old(currentIndex) < totalSpaces - 1 ==> (won <==> currentIndex == totalSpaces - 1)
    {
      won, path := false, [];
      if card.id == "go_to_end" {
        path := MoveToIndex(totalSpaces - 1);
        won := true;
      } else if card.id == "go_to_start" {
        path := MoveToIndex(0);
      } else if card.id == "lose_turn" {
        skipNextTurn := true;
      } else if card.id == "extra_turn" {
      } else if card.id == "roll_forward" {
        var roll := RollD6(bonusDraw);
        path := MoveToIndex(Min(currentIndex + roll, totalSpaces - 1));
        won := currentIndex >= totalSpaces - 1;
      } else if card.id == "jump_forward" {
        path := MoveToIndex(Min(currentIndex + card.params["steps"], totalSpaces - 1));
        won := currentIndex >= totalSpaces - 1;
      } else if card.id == "go_back" {
        path := MoveToIndex(Max(currentIndex - card.params["steps"], 0));
      }
    }

    /** What `resolveSpace()` does with a drawn card: pick its text, then
        apply its effect. */
    method PlayCard(card: Card, spaceType: string, textDraw: real, bonusDraw: real) returns (outcome: SpaceOutcome)
      requires Valid() && CardOk(card) && currentIndex < totalSpaces - 1
      requires 0.0 <= textDraw < 1.0 && 0.0 <= bonusDraw < 1.0
      modifies this`currentIndex, this`skipNextTurn
      ensures Valid()
      ensures outcome.CardPlayed? && outcome.card == card
      ensures outcome.text == PickCardText(cards, spaceType, card.id, textDraw)
      ensures outcome.summary == DescribeEffect(card)
      ensures currentIndex == EffectIndex(card, old(currentIndex), totalSpaces, RollD6(bonusDraw))
      ensures outcome.path == Path(old(currentIndex), currentIndex)
      ensures skipNextTurn == (old(skipNextTurn) || card.id == "lose_turn")
      ensures outcome.won == EffectWins(card.id, currentIndex, totalSpaces)
      ensures outcome.won <==> currentIndex == totalSpaces - 1
    {
      var text := PickCardText(cards, spaceType, card.id, textDraw);
      var summary := DescribeEffect(card);
      var won, path := ApplyCardEffect(card, bonusDraw);
      outcome := CardPlayed(card, text, summary, path, won);
    }

    /** The card branch of `resolveSpace()`: draw from `deckState`, pick the
        card's text, then apply its effect. */
    method PlayFrom(deckState: DeckState, spaceType: string, textDraw: real, bonusDraw: real)
      returns (outcome: SpaceOutcome, ghost pile: seq<Card>)
      requires Valid() && currentIndex < totalSpaces - 1
      requires deckState == goodDeck || deckState == badDeck
      requires 0.0 <= textDraw < 1.0 && 0.0 <= bonusDraw < 1.0
      modifies this`currentIndex, this`skipNextTurn, deckState
      ensures Valid()
      ensures outcome.DeckExhausted? || outcome.CardPlayed?
      ensures outcome.DeckExhausted? ==>
                && deckState.original == [] && deckState.deck == [] && unchanged(deckState)
                && currentIndex == old(currentIndex) && skipNextTurn == old(skipNextTurn)
      ensures outcome.CardPlayed? ==>
                && DrewFrom(old(deckState.deck), deckState.original, pile, outcome.card, deckState.deck)
                && multiset(deckState.deck) + multiset{outcome.card}
                   == (if old(deckState.deck) == [] then multiset(deckState.original) else multiset(old(deckState.deck)))
                && outcome.text == PickCardText(cards, spaceType, outcome.card.id, textDraw)
                && outcome.summary == DescribeEffect(outcome.card)
                && CardOk(outcome.card)
                && currentIndex == EffectIndex(outcome.card, old(currentIndex), totalSpaces, RollD6(bonusDraw))
                && outcome.path == Path(old(currentIndex), currentIndex)
                && skipNextTurn == (old(skipNextTurn) || outcome.card.id == "lose_turn")
                && outcome.won == EffectWins(outcome.card.id, currentIndex, totalSpaces)
                && (outcome.won <==> currentIndex == totalSpaces - 1)
    {
      var card: Option<Card>;
      card, pile := DrawCard(deckState);
      if card.None? {
        outcome := DeckExhausted;
        return;
      }
      assert card.value in deckState.original;
      assert Valid();
      outcome := PlayCard(card.value, spaceType, textDraw, bonusDraw);
    }

    /** `resolveSpace()`: a win on the last space; otherwise a card from the
        matching deck on a good or bad space, its text, and its effect. */
    method ResolveSpace(textDraw: real, bonusDraw: real) returns (outcome: SpaceOutcome, ghost pile: seq<Card>)
      requires Valid()
      requires 0.0 <= textDraw < 1.0 && 0.0 <= bonusDraw < 1.0
      modifies this`currentIndex, this`skipNextTurn, goodDeck, badDeck
      ensures Valid()
      ensures outcome.Arrived? <==> old(currentIndex) >= totalSpaces - 1
      ensures old(currentIndex) < totalSpaces - 1 ==>
                (outcome.SteadyProgress? <==>
                   boardSpaces[old(currentIndex)] != "good" && boardSpaces[old(currentIndex)] != "bad")
      ensures !outcome.CardPlayed? ==> unchanged(goodDeck) && unchanged(badDeck)
      ensures !outcome.CardPlayed? ==>
                currentIndex == old(currentIndex) && skipNextTurn == old(skipNextTurn)
      ensures outcome.DeckExhausted? ==>
                var deck := if boardSpaces[old(currentIndex)] == "good" then goodDeck else badDeck;
                deck.original == [] && deck.deck == []
      ensures outcome.CardPlayed? ==>
                var spaceType := boardSpaces[old(currentIndex)];
                var deck := if spaceType == "good" then goodDeck else badDeck;
                var other := if spaceType == "good" then badDeck else goodDeck;
                && (spaceType == "good" || spaceType == "bad")
                && unchanged(other)
                && DrewFrom(old(deck.deck), deck.original, pile, outcome.card, deck.deck)
                && multiset(deck.deck) + multiset{outcome.card}
                   == (if old(deck.deck) == [] then multiset(deck.original) else multiset(old(deck.deck)))
                && outcome.text == PickCardText(cards, spaceType, outcome.card.id, textDraw)
                && outcome.summary == DescribeEffect(outcome.card)
                && CardOk(outcome.card)
                && currentIndex == EffectIndex(outcome.card, old(currentIndex), totalSpaces, RollD6(bonusDraw))
                && outcome.path == Path(old(currentIndex), currentIndex)
                && skipNextTurn == (old(skipNextTurn) || outcome.card.id == "lose_turn")
                && outcome.won == EffectWins(outcome.card.id, currentIndex, totalSpaces)
      ensures (outcome.Arrived? || (outcome.CardPlayed? && outcome.won)) <==> currentIndex == totalSpaces - 1
      ensures old(currentIndex) < totalSpaces - 1 ==>
                PilesAfter(outcome, boardSpaces[old(currentIndex)], pile,
                           goodDeck.original, old(goodDeck.deck), goodDeck.deck,
                           badDeck.original, old(badDeck.deck), badDeck.deck)
    {
      pile := [];
      if currentIndex >= totalSpaces - 1 {
        outcome := Arrived;
        return;
      }
      var spaceType := boardSpaces[currentIndex];
      if spaceType == "good" {
        outcome, pile := PlayFrom(goodDeck, spaceType, textDraw, bonusDraw);
      } else if spaceType == "bad" {
        outcome, pile := PlayFrom(badDeck, spaceType, textDraw, bonusDraw);
      } else {
        outcome := SteadyProgress;
      }
    }

    /** The rolled branch of `handleRoll()`: count the turn, roll the die,
        walk to `min(currentIndex + roll, totalSpaces - 1)` and resolve the
        space reached. */
    method RollTurn(rollDraw: real, textDraw: real, bonusDraw: real) returns (report: TurnReport, ghost pile: seq<Card>)
      requires Valid() && !skipNextTurn
      requires 0.0 <= rollDraw < 1.0 && 0.0 <= textDraw < 1.0 && 0.0 <= bonusDraw < 1.0
      modifies this`turnCount, this`lastRoll, this`currentIndex, this`skipNextTurn, goodDeck, badDeck
      ensures Valid()
      ensures turnCount == old(turnCount) + 1
      ensures var roll := RollD6(rollDraw);
              var landed := RollTarget(old(currentIndex), roll, totalSpaces);
              && report.Rolled? && report.roll == roll && lastRoll == Some(roll)
              && (old(currentIndex) < landed || landed == totalSpaces - 1)
              && report.path == Path(old(currentIndex), landed)
              && (report.outcome.Arrived? <==> landed == totalSpaces - 1)
              && (landed < totalSpaces - 1 ==>
                    (report.outcome.SteadyProgress? <==>
                       boardSpaces[landed] != "good" && boardSpaces[landed] != "bad"))
              && (!report.outcome.CardPlayed? ==> currentIndex == landed && !skipNextTurn)
              && (landed < totalSpaces - 1 ==>
                    PilesAfter(report.outcome, boardSpaces[landed], pile,
                               goodDeck.original, old(goodDeck.deck), goodDeck.deck,
                               badDeck.original, old(badDeck.deck), badDeck.deck))
              && (report.outcome.Arrived? ==> unchanged(goodDeck) && unchanged(badDeck))
              && (report.outcome.DeckExhausted? ==>
                    var deck := if boardSpaces[landed] == "good" then goodDeck else badDeck;
                    deck.original == [] && deck.deck == [])
              && (report.outcome.CardPlayed? ==>
                    var card := report.outcome.card;
                    var spaceType := boardSpaces[landed];
                    && report.outcome.text == PickCardText(cards, spaceType, card.id, textDraw)
                    && report.outcome.summary == DescribeEffect(card)
                    && CardOk(card)
                    && currentIndex == EffectIndex(card, landed, totalSpaces, RollD6(bonusDraw))
                    && report.outcome.path == Path(landed, currentIndex)
                    && skipNextTurn == (card.id == "lose_turn")
                    && report.outcome.won == EffectWins(card.id, currentIndex, totalSpaces))
              && (report.Won() <==> currentIndex == totalSpaces - 1)
    {
      turnCount := turnCount + 1;
      var roll := RollD6(rollDraw);
      lastRoll := Some(roll);
      var targetIndex := Min(currentIndex + roll, totalSpaces - 1);
      assert targetIndex == RollTarget(old(currentIndex), roll, totalSpaces);
      var path := MoveToIndex(targetIndex);
      assert Valid();
      var outcome;
      outcome, pile := ResolveSpace(textDraw, bonusDraw);
      report := Rolled(roll, path, outcome);
      assert report.Won() <==> currentIndex == totalSpaces - 1;
    }

    /** `handleRoll()`: a pending skip is used up without a roll; otherwise
        the die moves the token towards the last space and the landing
        space is resolved. Both kinds of turn are counted. */
    method HandleRoll(rollDraw: real, textDraw: real, bonusDraw: real) returns (report: TurnReport, ghost pile: seq<Card>)
      requires Valid()
      requires 0.0 <= rollDraw < 1.0 && 0.0 <= textDraw < 1.0 && 0.0 <= bonusDraw < 1.0
      modifies this`turnCount, this`lastRoll, this`currentIndex, this`skipNextTurn, goodDeck, badDeck
      ensures Valid()
      ensures turnCount == old(turnCount) + 1
      ensures old(skipNextTurn) ==>
                && report == TurnSkipped && !skipNextTurn
                && currentIndex == old(currentIndex) && lastRoll == old(lastRoll)
                && unchanged(goodDeck) && unchanged(badDeck)
      ensures !old(skipNextTurn) ==>
                var roll := RollD6(rollDraw);
                var landed := RollTarget(old(currentIndex), roll, totalSpaces);
                && report.Rolled? && report.roll == roll && lastRoll == Some(roll)
                && (old(currentIndex) < landed || landed == totalSpaces - 1)
                && report.path == Path(old(currentIndex), landed)
                && (report.outcome.Arrived? <==> landed == totalSpaces - 1)
                && (landed < totalSpaces - 1 ==>
                      (report.outcome.SteadyProgress? <==>
                         boardSpaces[landed] != "good" && boardSpaces[landed] != "bad"))
                && (!report.outcome.CardPlayed? ==> currentIndex == landed && !skipNextTurn)
                && (landed < totalSpaces - 1 ==>
                      PilesAfter(report.outcome, boardSpaces[landed], pile,
                                 goodDeck.original, old(goodDeck.deck), goodDeck.deck,
                                 badDeck.original, old(badDeck.deck), badDeck.deck))
                && (report.outcome.Arrived? ==> unchanged(goodDeck) && unchanged(badDeck))
                && (report.outcome.DeckExhausted? ==>
                      var deck := if boardSpaces[landed] == "good" then goodDeck else badDeck;
                      deck.original == [] && deck.deck == [])
                && (report.outcome.CardPlayed? ==>
                      var card := report.outcome.card;
                      var spaceType := boardSpaces[landed];
                      && report.outcome.text == PickCardText(cards, spaceType, card.id, textDraw)
                      && report.outcome.summary == DescribeEffect(card)
                      && CardOk(card)
                      && currentIndex == EffectIndex(card, landed, totalSpaces, RollD6(bonusDraw))
                      && report.outcome.path == Path(landed, currentIndex)
                      && skipNextTurn == (card.id == "lose_turn")
                      && report.outcome.won == EffectWins(card.id, currentIndex, totalSpaces))
                && (report.Won() <==> currentIndex == totalSpaces - 1)
    {
      if skipNextTurn {
        skipNextTurn := false;
        turnCount := turnCount + 1;
        report, pile := TurnSkipped, [];
        return;
      }
      report, pile := RollTurn(rollDraw, textDraw, bonusDraw);
    }
  }
}
