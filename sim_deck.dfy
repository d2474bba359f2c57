/** The headless simulator's deck (simulate.py): `Deck.from_spec` expands a
    deck specification, shuffles the cards that are not pinned and puts the
    pinned ones after them; `Deck.draw` deals the cards in order and
    reshuffles the whole list each time it wraps around. */
module SimDeck {
  import opened Support

  datatype Card = Card(cardId: string, params: map<string, int>)

  /** The exceptions the simulator raises, each a ValueError unless noted. */
  datatype SimError =
    | EmptyDeck                     // drawing from a deck with no cards
    | MissingSteps                  // a go_back card without params.steps
    | EmptyRange(lo: int, hi: int)  // rng.randint(lo, hi) with lo > hi
    | UnknownCard(id: string)       // a card id resolve_card does not know
    | NoSpaces                      // IndexError: an empty board
    | BadBoard                      // first space not "start" or last not "end"
    | NoPlayers                     // IndexError: no player state to start from

  datatype Result<T> = Ok(value: T) | Err(error: SimError)

  /** `int(card_spec.get("count", 1))` copies; `range` of a negative count is empty. */
  function Copies(entry: SpecEntry): nat {
    match entry.count
    case None => 1
    case Some(n) => if n > 0 then n else 0
  }

  /** `Card(card_id=card_spec["id"], params=card_spec.get("params", {}))` */
  function CardOf(entry: SpecEntry): Card {
    Card(entry.id, if entry.params.Some? then entry.params.value else map[])
  }

  /** The copies of the entries without `pin_last`, in specification order. */
  function Unpinned(spec: seq<SpecEntry>): seq<Card> {
    if spec == [] then []
    else
      var last := spec[|spec| - 1];
      Unpinned(spec[..|spec| - 1]) + (if Truthy(last.pinLast) then [] else Repeat(CardOf(last), Copies(last)))
  }

  /** The copies of the entries with `pin_last`, in specification order. */
  function Pinned(spec: seq<SpecEntry>): seq<Card> {
    if spec == [] then []
    else
      var last := spec[|spec| - 1];
      Pinned(spec[..|spec| - 1]) + (if Truthy(last.pinLast) then Repeat(CardOf(last), Copies(last)) else [])
  }

  function TotalCopies(spec: seq<SpecEntry>): nat {
    if spec == [] then 0 else TotalCopies(spec[..|spec| - 1]) + Copies(spec[|spec| - 1])
  }

  /** Every copy goes to exactly one of the two lists. */
  lemma {:induction false} SplitLength(spec: seq<SpecEntry>)
    ensures |Unpinned(spec)| + |Pinned(spec)| == TotalCopies(spec)
  {
    if spec != [] {
      SplitLength(spec[..|spec| - 1]);
    }
  }

  /** Every card of either list is the card of some entry of the specification. */
  lemma {:induction false} SplitMembers(spec: seq<SpecEntry>, c: Card)
    requires c in Unpinned(spec) || c in Pinned(spec)
    ensures exists k :: 0 <= k < |spec| && c == CardOf(spec[k])
  {
    var init := spec[..|spec| - 1];
    var last := spec[|spec| - 1];
    if c in Unpinned(init) || c in Pinned(init) {
      SplitMembers(init, c);
      var k :| 0 <= k < |init| && c == CardOf(init[k]);
      assert spec[k] == init[k];
    } else {
      assert c == CardOf(spec[|spec| - 1]);
    }
  }

  /** The order `from_spec` leaves the cards in: the unpinned copies in some
      order, then the pinned copies in specification order. */
  predicate DealOrder(cards: seq<Card>, spec: seq<SpecEntry>) {
    && |Unpinned(spec)| <= |cards|
    && multiset(cards[..|Unpinned(spec)|]) == multiset(Unpinned(spec))
    && cards[|Unpinned(spec)|..] == Pinned(spec)
  }

  /** The two append loops of `from_spec`. */
  method ExpandSpec(spec: seq<SpecEntry>) returns (cards: seq<Card>, pinned: seq<Card>)
    ensures cards == Unpinned(spec) && pinned == Pinned(spec)
  {
    cards, pinned := [], [];
    var k := 0;
    while k < |spec|
      invariant 0 <= k <= |spec|
      invariant cards == Unpinned(spec[..k]) && pinned == Pinned(spec[..k])
    {
      var cardSpec := spec[k];
      var count := Copies(cardSpec);
      var pinLast := Truthy(cardSpec.pinLast);
      var n := 0;
      while n < count
        invariant 0 <= n <= count
        invariant pinLast ==> cards == Unpinned(spec[..k]) && pinned == Pinned(spec[..k]) + Repeat(CardOf(cardSpec), n)
        invariant !pinLast ==> pinned == Pinned(spec[..k]) && cards == Unpinned(spec[..k]) + Repeat(CardOf(cardSpec), n)
      {
        var card := CardOf(cardSpec);
        if pinLast {
          pinned := pinned + [card];
        } else {
          cards := cards + [card];
        }
        n := n + 1;
      }
      assert spec[..k + 1][..k] == spec[..k];
      k := k + 1;
    }
    assert spec[..k] == spec;
  }

  /** `rng.shuffle(cards)`: the library's in-place shuffle, modelled as an
      arbitrary rearrangement of the list. */
  method RngShuffle(cards: seq<Card>) returns (shuffled: seq<Card>)
    ensures multiset(shuffled) == multiset(cards)
  {
    shuffled :| multiset(shuffled) == multiset(cards);
  }

  /** How one `draw()` moves a deck holding `cards` at index `index` to
      `cards'` at `index'`: an empty deck stays empty; otherwise the index
      moves to the next card, or, past the last card, back to 0 with the
      same cards reshuffled. */
  predicate Advanced(cards: seq<Card>, index: nat, cards': seq<Card>, index': nat) {
    if cards == [] then cards' == [] && index' == 0
    else if index + 1 < |cards| then cards' == cards && index' == index + 1
    else index' == 0 && multiset(cards') == multiset(cards)
  }

  class Deck {
    var cards: seq<Card>
    var index: nat

    /** The index always points at a card, except in a deck with none. */
    ghost predicate Valid()
      reads this
    {
      index < |cards| || (cards == [] && index == 0)
    }

    /** `Deck.__init__(cards, rng)` */
    constructor (cards: seq<Card>)
      ensures this.cards == cards && index == 0
      ensures Valid()
    {
      this.cards := cards;
      index := 0;
    }

    /** `Deck.from_spec(spec, rng)`: the unpinned copies shuffled, then the
        pinned copies in specification order; dealing starts at index 0. */
    static method FromSpec(spec: seq<SpecEntry>) returns (deck: Deck)
      ensures fresh(deck) && deck.Valid() && deck.index == 0
      ensures |deck.cards| == TotalCopies(spec)
      ensures DealOrder(deck.cards, spec)
    {
      var cards, pinned := ExpandSpec(spec);
      var shuffled := RngShuffle(cards);
      assert |shuffled| == |cards| by { assert |multiset(shuffled)| == |multiset(cards)|; }
      var all := shuffled + pinned;
      assert all[..|cards|] == shuffled && all[|cards|..] == pinned;
      SplitLength(spec);
      deck := new Deck(all);
    }

    /** `Deck.draw()`: the card at the index; when the index runs off the
        end it goes back to 0 and the whole list is reshuffled. */
    method Draw() returns (r: Result<Card>)
      requires Valid()
      modifies this
      ensures Valid()
      ensures multiset(cards) == multiset(old(cards)) && |cards| == |old(cards)|
      ensures old(cards) == [] ==> r == Err(EmptyDeck) && cards == [] && index == 0
      ensures old(cards) != [] ==> r == Ok(old(cards[index]))
      ensures old(cards) != [] && old(index) + 1 < |old(cards)| ==> index == old(index) + 1 && cards == old(cards)
      ensures old(cards) != [] && old(index) + 1 == |old(cards)| ==> index == 0
      ensures Advanced(old(cards), old(index), cards, index)
    {
      if cards == [] {
        return Err(EmptyDeck);
      }
      var card := cards[index];
      index := index + 1;
      if index >= |cards| {
        index := 0;
        var shuffled := RngShuffle(cards);
        assert |shuffled| == |cards| by { assert |multiset(shuffled)| == |multiset(cards)|; }
        cards := shuffled;
      }
      r := Ok(card);
    }
  }

  /** Dealing a fresh deck once round: the unpinned cards come first, in some
      order, and the pinned ones last, in specification order. On later
      rounds the reshuffle mixes them. */
  method FirstPass(spec: seq<SpecEntry>) returns (drawn: seq<Card>)
    ensures |drawn| == TotalCopies(spec)
    ensures DealOrder(drawn, spec)
  {
    var deck := Deck.FromSpec(spec);
    ghost var initial := deck.cards;
    var n := |deck.cards|;
    drawn := [];
    while |drawn| < n
      invariant deck.Valid() && |deck.cards| == n
      invariant |drawn| <= n
      invariant drawn == initial[..|drawn|]
      invariant |drawn| < n ==> deck.cards == initial && deck.index == |drawn|
    {
      var r := deck.Draw();
      drawn := drawn + [r.value];
    }
    assert drawn == initial;
  }
}
