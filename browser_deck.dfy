/** The browser engine's decks (public/game.js): `buildDeck` expands a deck
    specification, `shuffle` permutes an array in place, and `drawCard`
    takes one card from a deck state, refilling it from a shuffled copy of
    the original card list when it is empty. */
module BrowserDeck {
  import opened Support

  /** A card as `buildDeck` produces it. */
  datatype Card = Card(id: string, params: map<string, int>, pinLast: bool)

  /** `{ id: entry.id, params: entry.params || {}, pinLast: !!entry.pin_last }` */
  function CardOf(entry: SpecEntry): Card {
    Card(entry.id, if entry.params.Some? then entry.params.value else map[], Truthy(entry.pinLast))
  }

  /** How often `i < entry.count` holds for i = 0, 1, ...: never when the
      count is absent (the comparison with `undefined` is false). */
  function Copies(entry: SpecEntry): nat {
    if entry.count.Some? && entry.count.value > 0 then entry.count.value else 0
  }

  /** The deck `buildDeck` returns: the copies of each entry, entry after entry. */
  function Expand(spec: seq<SpecEntry>): seq<Card> {
    if spec == [] then []
    else
      var last := spec[|spec| - 1];
      Expand(spec[..|spec| - 1]) + Repeat(CardOf(last), Copies(last))
  }

  function TotalCopies(spec: seq<SpecEntry>): nat {
    if spec == [] then 0 else TotalCopies(spec[..|spec| - 1]) + Copies(spec[|spec| - 1])
  }

  lemma {:induction false} ExpandLength(spec: seq<SpecEntry>)
    ensures |Expand(spec)| == TotalCopies(spec)
  {
    if spec != [] {
      ExpandLength(spec[..|spec| - 1]);
    }
  }

  /** Entry `k` contributes exactly its copies, right after the cards of
      the entries before it: the deck keeps the specification's order. */
  lemma {:induction false} ExpandBlock(spec: seq<SpecEntry>, k: nat)
    requires k < |spec|
    ensures TotalCopies(spec[..k + 1]) == TotalCopies(spec[..k]) + Copies(spec[k])
    ensures TotalCopies(spec[..k + 1]) <= |Expand(spec)|
    ensures Expand(spec)[TotalCopies(spec[..k]) .. TotalCopies(spec[..k + 1])]
         == Repeat(CardOf(spec[k]), Copies(spec[k]))
  {
    var init := spec[..|spec| - 1];
    assert spec[..k + 1][..k] == spec[..k];
    if k == |spec| - 1 {
      assert init == spec[..k];
      assert spec[..k + 1] == spec;
      ExpandLength(init);
    } else {
      assert init[..k] == spec[..k] && init[..k + 1] == spec[..k + 1];
      ExpandBlock(init, k);
    }
  }

  /** A card is in the deck exactly when some entry with a positive count
      produces it. */
  lemma {:induction false} ExpandMembers(spec: seq<SpecEntry>, c: Card)
    ensures c in Expand(spec) <==> exists k :: 0 <= k < |spec| && Copies(spec[k]) > 0 && c == CardOf(spec[k])
  {
    if spec != [] {
      var init := spec[..|spec| - 1];
      ExpandMembers(init, c);
      var last := spec[|spec| - 1];
      assert Expand(spec) == Expand(init) + Repeat(CardOf(last), Copies(last));
      if c in Expand(spec) {
        if c in Expand(init) {
          var k :| 0 <= k < |init| && Copies(init[k]) > 0 && c == CardOf(init[k]);
          assert init[k] == spec[k];
        } else {
          assert c in Repeat(CardOf(last), Copies(last));
          assert Copies(spec[|spec| - 1]) > 0 && c == CardOf(spec[|spec| - 1]);
        }
      }
      if exists k :: 0 <= k < |spec| && Copies(spec[k]) > 0 && c == CardOf(spec[k]) {
        var k :| 0 <= k < |spec| && Copies(spec[k]) > 0 && c == CardOf(spec[k]);
        if k < |spec| - 1 {
          assert init[k] == spec[k];
        } else {
          assert Repeat(CardOf(last), Copies(last))[0] == c;
        }
      }
    }
  }

  /** `buildDeck`: a push loop inside a loop over the entries. */
  method BuildDeck(deckSpec: seq<SpecEntry>) returns (deck: seq<Card>)
    ensures deck == Expand(deckSpec)
    ensures |deck| == TotalCopies(deckSpec)
  {
    deck := [];
    var k := 0;
    while k < |deckSpec|
      invariant 0 <= k <= |deckSpec|
      invariant deck == Expand(deckSpec[..k])
    {
      var entry := deckSpec[k];
      var i := 0;
      while entry.count.Some? && i < entry.count.value
        invariant 0 <= i <= Copies(entry)
        invariant deck == Expand(deckSpec[..k]) + Repeat(CardOf(entry), i)
      {
        deck := deck + [CardOf(entry)];
        i := i + 1;
      }
      assert deckSpec[..k + 1][..k] == deckSpec[..k];
      k := k + 1;
    }
    assert deckSpec[..k] == deckSpec;
    ExpandLength(deckSpec);
  }

  /** `shuffle`: Fisher-Yates in place, swapping position i with a random
      position in [0, i] for i from the last index down to 1; it returns
      the same array. */
  method Shuffle<T>(items: array<T>) returns (r: array<T>)
    modifies items
    ensures r == items
    ensures multiset(items[..]) == multiset(old(items[..]))
    ensures items.Length <= 1 ==> items[..] == old(items[..])
  {
    var i := items.Length - 1;
    while i > 0
      invariant -1 <= i < items.Length
      invariant multiset(items[..]) == multiset(old(items[..]))
      invariant items.Length <= 1 ==> items[..] == old(items[..])
    {
      var j :| 0 <= j <= i;
      items[i], items[j] := items[j], items[i];
      i := i - 1;
    }
    r := items;
  }

  /** `shuffle(original.slice())`: a shuffled copy; `original` is untouched. */
  method ShuffledCopy(original: seq<Card>) returns (pile: seq<Card>)
    ensures multiset(pile) == multiset(original)
    ensures |pile| == |original|
  {
    var copy := new Card[|original|](i requires 0 <= i < |original| => original[i]);
    assert copy[..] == original;
    var shuffled := Shuffle(copy);
    pile := shuffled[..];
    assert |multiset(pile)| == |multiset(original)|;
  }

  /** `{ original, deck }`: the fixed card list and the current pile. */
  class DeckState {
    const original: seq<Card>
    var deck: seq<Card>

    /** The pile only ever holds cards of the original list. */
    ghost predicate Valid()
      reads this
    {
      multiset(deck) <= multiset(original)
    }

    constructor (original: seq<Card>)
      ensures this.original == original && deck == []
      ensures Valid()
    {
      this.original := original;
      deck := [];
    }
  }

  datatype Drawn = Drawn(card: Card, rest: seq<Card>)

  /** What `drawCard` does to a non-empty pile: take the front card; if it is
      pinned, push it to the back and take the new front card instead. */
  function DrawFrom(pile: seq<Card>): (r: Drawn)
    requires pile != []
    ensures multiset(r.rest) + multiset{r.card} == multiset(pile)
    ensures |r.rest| == |pile| - 1
    ensures !pile[0].pinLast ==> r.card == pile[0] && r.rest == pile[1..]
    ensures pile[0].pinLast && |pile| >= 2 ==> r.card == pile[1] && r.rest == pile[2..] + [pile[0]]
    ensures pile[0].pinLast && |pile| == 1 ==> r.card == pile[0] && r.rest == []
  {
    if pile[0].pinLast && |pile| >= 2 then
      assert pile == [pile[0]] + [pile[1]] + pile[2..];
      assert multiset(pile) == multiset{pile[0]} + multiset{pile[1]} + multiset(pile[2..]);
      Drawn(pile[1], pile[2..] + [pile[0]])
    else
      assert pile == [pile[0]] + pile[1..];
      assert multiset(pile) == multiset{pile[0]} + multiset(pile[1..]);
      Drawn(pile[0], pile[1..])
  }

  /** One `drawCard` takes the pile `before` to the pile `after` and deals
      `card`: the pile drawn from is `before`, or, when `before` is empty,
      `pile`, a shuffled copy of `original`; the draw is `DrawFrom` of it. */
  ghost predicate DrewFrom(before: seq<Card>, original: seq<Card>, pile: seq<Card>, card: Card, after: seq<Card>) {
    && (before != [] ==> pile == before)
    && (before == [] ==> multiset(pile) == multiset(original))
    && pile != []
    && DrawFrom(pile) == Drawn(card, after)
  }

  /** The `shift()` / `push()` steps of `drawCard` on a non-empty pile: the
      front card is shifted off; a pinned one is pushed back and the pile
      shifted again. */
  method ShiftCard(pile: seq<Card>) returns (card: Card, rest: seq<Card>)
    requires pile != []
    ensures Drawn(card, rest) == DrawFrom(pile)
  {
    card := pile[0];
    rest := pile[1..];
    if card.pinLast {
      rest := rest + [card];
      card := rest[0];
      rest := rest[1..];
      if |pile| >= 2 {
        assert card == pile[1] && rest == pile[2..] + [pile[0]];
      } else {
        assert card == pile[0] && rest == [];
      }
    }
  }

  /** `drawCard(deckState)`. A deck whose original list is empty has nothing
      to refill from: `shift()` yields `undefined` and reading `pinLast` of
      it throws, which the model reports as None. */
  method DrawCard(deckState: DeckState) returns (card: Option<Card>, ghost pile: seq<Card>)
    requires deckState.Valid()
    modifies deckState
    ensures deckState.Valid()
    ensures old(deckState.deck) != [] ==> pile == old(deckState.deck)
    ensures old(deckState.deck) == [] ==> multiset(pile) == multiset(deckState.original)
    ensures pile == [] ==> card == None && deckState.deck == [] && deckState.original == []
    ensures pile != [] ==> card == Some(DrawFrom(pile).card) && deckState.deck == DrawFrom(pile).rest
    ensures card.Some? ==> card.value in multiset(deckState.original)
    ensures card.Some? ==> DrewFrom(old(deckState.deck), deckState.original, pile, card.value, deckState.deck)
    ensures card.None? ==> unchanged(deckState)
  {
    if deckState.deck == [] {
      deckState.deck := ShuffledCopy(deckState.original);
    }
    pile := deckState.deck;
    if deckState.deck == [] {
      assert multiset(old(deckState.deck)) <= multiset([]);
      card := None;
      return;
    }
    var c, rest := ShiftCard(deckState.deck);
    deckState.deck := rest;
    card := Some(c);
  }
}
