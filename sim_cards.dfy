/** The simulator's card effects (`resolve_card` in simulate.py): a card moves
    the player's token, or sets one of the player's three flags, or is
    rejected with a ValueError. */
module SimCards {
  import opened Support
  import opened SimDeck

  /** The per-player state dictionary `{skip_next, counter_bad, extra_turn}`. */
  datatype Flags = Flags(skipNext: bool, counterBad: bool, extraTurn: bool)

  const NoFlags := Flags(false, false, false)

  /** What `resolve_card` returns: the new position and the player's flags. */
  datatype Resolved = Resolved(position: int, state: Flags)

  predicate IsKnownCard(id: string) {
    || id == "go_back" || id == "go_to_start" || id == "roll_back"
    || id == "lose_turn" || id == "counter_next_bad" || id == "roll_forward"
    || id == "extra_turn" || id == "jump_forward" || id == "jump_next_neutral"
    || id == "go_to_end"
  }

  /** The cards that set a flag and leave the token where it is. */
  predicate IsFlagCard(id: string) {
    id == "lose_turn" || id == "counter_next_bad" || id == "extra_turn"
  }

  /** `int(params.get("min", 1))` and `int(params.get("max", 3))`. */
  function JumpLo(params: map<string, int>): int {
    if "min" in params then params["min"] else 1
  }

  function JumpHi(params: map<string, int>): int {
    if "max" in params then params["max"] else 3
  }

  /** Step parameters that never move a token backwards past its start or
      forwards on a backward card: the board positions then stay in range. */
  predicate StepsOk(card: Card) {
    && (card.cardId == "go_back" && "steps" in card.params ==> card.params["steps"] >= 0)
    && (card.cardId == "jump_forward" && "steps" in card.params ==> card.params["steps"] >= 0)
    && (card.cardId == "jump_forward" && "steps" !in card.params ==> JumpLo(card.params) >= 0)
  }

  /** Where the `jump_next_neutral` scan starting at `idx` stops: the first
      neutral space before `endIndex`, or `endIndex` if there is none. */
  function NeutralScan(spaces: seq<string>, idx: int, endIndex: int): (stop: int)
    requires 0 <= idx && endIndex <= |spaces|
    decreases endIndex - idx
    ensures idx <= stop
    ensures stop > idx ==> stop <= endIndex
    ensures stop < endIndex ==> spaces[stop] == "neutral"
    ensures forall k :: idx <= k < stop ==> k < endIndex && spaces[k] != "neutral"
  {
    if idx < endIndex && spaces[idx] != "neutral" then NeutralScan(spaces, idx + 1, endIndex) else idx
  }

  /** The scan loop of the `jump_next_neutral` branch. */
  method NextNeutral(spaces: seq<string>, position: int, endIndex: int) returns (idx: int)
    requires 0 <= position && endIndex <= |spaces|
    ensures idx == NeutralScan(spaces, position + 1, endIndex)
  {
    idx := position + 1;
    while idx < endIndex && spaces[idx] != "neutral"
      invariant position + 1 <= idx
      invariant NeutralScan(spaces, idx, endIndex) == NeutralScan(spaces, position + 1, endIndex)
      decreases endIndex - idx
    {
      idx := idx + 1;
    }
  }

  /** The effect of one card, as a value: `u` is the draw the card's own
      random choice uses (the die of `roll_back` and `roll_forward`, the
      `randint` of a `jump_forward` without steps). */
  function CardEffect(card: Card, position: int, endIndex: int, spaces: seq<string>, u: real, state: Flags): (r: Result<Resolved>)
    requires 0.0 <= u < 1.0
    requires 0 <= position && endIndex == |spaces| - 1
    // the three ValueErrors, and nothing else fails
    ensures !IsKnownCard(card.cardId) <==> r == Err(UnknownCard(card.cardId))
    ensures r == Err(MissingSteps) <==> card.cardId == "go_back" && "steps" !in card.params
    ensures r.Err? && r.error.EmptyRange? <==>
              && card.cardId == "jump_forward" && "steps" !in card.params
              && JumpLo(card.params) > JumpHi(card.params)
    ensures r.Err? && r.error.EmptyRange? ==> r.error == EmptyRange(JumpLo(card.params), JumpHi(card.params))
    ensures r.Err? ==> r.error.UnknownCard? || r.error == MissingSteps || r.error.EmptyRange?
    // flag cards set their flag and stay; every other card keeps the flags
    ensures r.Ok? && IsFlagCard(card.cardId) ==> r.value.position == position
    ensures r.Ok? && !IsFlagCard(card.cardId) ==> r.value.state == state
    ensures card.cardId == "lose_turn" ==> r == Ok(Resolved(position, state.(skipNext := true)))
    ensures card.cardId == "counter_next_bad" ==> r == Ok(Resolved(position, state.(counterBad := true)))
    ensures card.cardId == "extra_turn" ==> r == Ok(Resolved(position, state.(extraTurn := true)))
    // moving cards
    ensures card.cardId == "go_to_start" ==> r.Ok? && r.value.position == 0
    ensures card.cardId == "go_to_end" ==> r.Ok? && r.value.position == endIndex
    ensures r.Ok? && card.cardId == "go_back" ==>
              var p := r.value.position;
              p >= 0 && p >= position - card.params["steps"] && (p == 0 || p == position - card.params["steps"])
    // a die or a random jump moves by some value in its range, clamped
    ensures r.Ok? && card.cardId == "roll_back" ==>
              var p := r.value.position;
              0 <= p <= position && position - p <= 6 && (p == 0 || 1 <= position - p)
    ensures r.Ok? && card.cardId == "roll_forward" ==>
              var p := r.value.position;
              p <= endIndex && p - position <= 6 && (p == endIndex || 1 <= p - position)
    ensures r.Ok? && card.cardId == "jump_forward" && "steps" in card.params ==>
              r.value.position == Min(endIndex, position + card.params["steps"])
    ensures r.Ok? && card.cardId == "jump_forward" && "steps" !in card.params ==>
              var p := r.value.position;
              p <= endIndex && p - position <= JumpHi(card.params)
              && (p == endIndex || JumpLo(card.params) <= p - position)
    ensures card.cardId == "jump_next_neutral" ==>
              && r.Ok?
              && r.value.position == Min(endIndex, NeutralScan(spaces, position + 1, endIndex))
              && (position < endIndex ==> position < r.value.position <= endIndex)
              && (r.value.position < endIndex ==> spaces[r.value.position] == "neutral")
    // a token on the board stays on the board
    ensures r.Ok? && position <= endIndex && StepsOk(card) ==> 0 <= r.value.position <= endIndex
  {
    var params := card.params;
    match card.cardId
    case "go_back" =>
      if "steps" !in params then Err(MissingSteps)
      else Ok(Resolved(Max(0, position - params["steps"]), state))
    case "go_to_start" => Ok(Resolved(0, state))
    case "roll_back" => Ok(Resolved(Max(0, position - RollD6(u)), state))
    case "lose_turn" => Ok(Resolved(position, state.(skipNext := true)))
    case "counter_next_bad" => Ok(Resolved(position, state.(counterBad := true)))
    case "roll_forward" => Ok(Resolved(Min(endIndex, position + RollD6(u)), state))
    case "extra_turn" => Ok(Resolved(position, state.(extraTurn := true)))
    case "jump_forward" =>
      if "steps" in params then Ok(Resolved(Min(endIndex, position + params["steps"]), state))
      else if JumpLo(params) <= JumpHi(params) then
        Ok(Resolved(Min(endIndex, position + RandInt(u, JumpLo(params), JumpHi(params))), state))
      else Err(EmptyRange(JumpLo(params), JumpHi(params)))
    case "jump_next_neutral" => Ok(Resolved(Min(endIndex, NeutralScan(spaces, position + 1, endIndex)), state))
    case "go_to_end" => Ok(Resolved(endIndex, state))
    case _ => Err(UnknownCard(card.cardId))
  }

  /** `resolve_card(card, position, end_index, spaces, rng, state)`. */
  method ResolveCard(card: Card, position: int, endIndex: int, spaces: seq<string>, u: real, state: Flags)
    returns (r: Result<Resolved>)
    requires 0.0 <= u < 1.0
    requires 0 <= position && endIndex == |spaces| - 1
    ensures r == CardEffect(card, position, endIndex, spaces, u, state)
  {
    var cardId := card.cardId;
    var params := card.params;
    var newPosition := position;
    var newState := state;
    if cardId == "go_back" {
      if "steps" !in params {
        return Err(MissingSteps);
      }
      newPosition := Max(0, position - params["steps"]);
    } else if cardId == "go_to_start" {
      newPosition := 0;
    } else if cardId == "roll_back" {
      newPosition := Max(0, position - RollD6(u));
    } else if cardId == "lose_turn" {
      newState := newState.(skipNext := true);
    } else if cardId == "counter_next_bad" {
      newState := newState.(counterBad := true);
    } else if cardId == "roll_forward" {
      newPosition := Min(endIndex, position + RollD6(u));
    } else if cardId == "extra_turn" {
      newState := newState.(extraTurn := true);
    } else if cardId == "jump_forward" {
      var delta;
      if "steps" in params {
        delta := params["steps"];
      } else {
        var lo, hi := JumpLo(params), JumpHi(params);
        if lo > hi {
          return Err(EmptyRange(lo, hi));
        }
        delta := RandInt(u, lo, hi);
      }
      newPosition := Min(endIndex, position + delta);
    } else if cardId == "jump_next_neutral" {
      var idx := NextNeutral(spaces, position, endIndex);
      newPosition := Min(endIndex, idx);
    } else if cardId == "go_to_end" {
      newPosition := endIndex;
    } else {
      return Err(UnknownCard(cardId));
    }
    r := Ok(Resolved(newPosition, newState));
  }
}
