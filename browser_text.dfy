/** What the browser shows for a drawn card (public/game.js): the title and
    description picked by `pickCardText` and the one-line effect summary
    written by `describeEffect`. */
module BrowserText {
  import opened Support
  import opened BrowserDeck

  datatype CardText = CardText(title: string, description: string)

  /** The card-text table: space type, then card id, to a list of texts. */
  type TextTable = map<string, map<string, seq<CardText>>>

  /** The pair used when no text list applies. */
  const SurpriseText := CardText("Pipeline Surprise", "A shift in the pipeline changes your pace.")

  /** `typePool[id] || typePool.generic || []` with `typePool = cards[type] || {}`.
      A list is truthy even when empty, so an existing list for `id` is
      used as it is and never replaced by the generic one. */
  function TextOptions(cards: TextTable, spaceType: string, id: string): seq<CardText> {
    var typePool := if spaceType in cards then cards[spaceType] else map[];
    if id in typePool then typePool[id]
    else if "generic" in typePool then typePool["generic"]
    else []
  }

  /** `pickCardText(cards, type, id)`, with `u` the draw of `Math.random()`. */
  function PickCardText(cards: TextTable, spaceType: string, id: string, u: real): (text: CardText)
    requires 0.0 <= u < 1.0
    ensures TextOptions(cards, spaceType, id) == [] ==> text == SurpriseText
    ensures TextOptions(cards, spaceType, id) != [] ==> text in TextOptions(cards, spaceType, id)
    ensures spaceType in cards && id in cards[spaceType] && cards[spaceType][id] != []
            ==> text in cards[spaceType][id]
    ensures spaceType in cards && id in cards[spaceType] && cards[spaceType][id] == []
            ==> text == SurpriseText
    ensures spaceType in cards && id !in cards[spaceType] && "generic" in cards[spaceType]
            && cards[spaceType]["generic"] != []
            ==> text in cards[spaceType]["generic"]
    ensures (spaceType !in cards || (id !in cards[spaceType] && "generic" !in cards[spaceType]))
            ==> text == SurpriseText
  {
    var options := TextOptions(cards, spaceType, id);
    if |options| == 0 then SurpriseText
    else options[RandomIndex(u, |options|)]
  }

  /** An empty list for the card's own id wins over a non-empty generic
      list: the card falls through to the hard-coded pair. */
  lemma EmptyListDoesNotFallBack(cards: TextTable, spaceType: string, id: string, u: real)
    requires 0.0 <= u < 1.0
    requires spaceType in cards && id in cards[spaceType] && cards[spaceType][id] == []
    requires "generic" in cards[spaceType] && SurpriseText !in cards[spaceType]["generic"]
    ensures PickCardText(cards, spaceType, id, u) !in cards[spaceType]["generic"]
  {
  }

  function DigitChar(d: nat): char
    requires d < 10
  {
    "0123456789"[d]
  }

  function DigitValue(c: char): nat
    requires '0' <= c <= '9'
  {
    (c as int - '0' as int) as nat
  }

  predicate IsDigits(s: string) {
    |s| >= 1 && forall i :: 0 <= i < |s| ==> '0' <= s[i] <= '9'
  }

  /** The decimal digits of a natural number, as JavaScript prints it. */
  function NaturalText(n: nat): (s: string)
    ensures IsDigits(s)
  {
    if n < 10 then [DigitChar(n)] else NaturalText(n / 10) + [DigitChar(n % 10)]
  }

  /** `${n}` for an integer `n` (values below 10^21, which JavaScript
      prints without an exponent). */
  function NumberText(n: int): string {
    if n < 0 then "-" + NaturalText(-n) else NaturalText(n)
  }

  function ParseNatural(s: string): nat
    requires IsDigits(s)
  {
    var last := DigitValue(s[|s| - 1]);
    if |s| == 1 then last
    else
      var init := s[..|s| - 1];
      assert IsDigits(init) by {
        forall i | 0 <= i < |init| ensures '0' <= init[i] <= '9' { assert init[i] == s[i]; }
      }
      ParseNatural(s[..|s| - 1]) * 10 + last
  }

  function ParseNumber(s: string): int {
    if |s| >= 2 && s[0] == '-' && IsDigits(s[1..]) then 0 - ParseNatural(s[1..]) as int
    else if IsDigits(s) then ParseNatural(s)
    else 0
  }

  lemma {:induction false} NaturalTextRoundTrip(n: nat)
    ensures ParseNatural(NaturalText(n)) == n
  {
    if n >= 10 {
      NaturalTextRoundTrip(n / 10);
      var s := NaturalText(n);
      assert s[..|s| - 1] == NaturalText(n / 10);
      assert DigitValue(DigitChar(n % 10)) == n % 10;
    } else {
      assert DigitValue(DigitChar(n)) == n;
    }
  }

  lemma ParseSigned(digits: string)
    requires IsDigits(digits)
    ensures ParseNumber("-" + digits) == 0 - ParseNatural(digits) as int
  {
    var s := "-" + digits;
    assert s[0] == '-' && s[1..] == digits;
  }

  lemma ParseUnsigned(digits: string)
    requires IsDigits(digits)
    ensures ParseNumber(digits) == ParseNatural(digits)
  {
    assert digits[0] != '-';
  }

  /** The number printed for an integer reads back as that integer. */
  lemma NumberTextRoundTrip(n: int)
    ensures ParseNumber(NumberText(n)) == n
  {
    var m: nat := if n < 0 then -n else n;
    var digits := NaturalText(m);
    NaturalTextRoundTrip(m);
    assert ParseNatural(digits) == m;
    if n < 0 {
      assert NumberText(n) == "-" + digits;
      ParseSigned(digits);
      assert ParseNumber("-" + digits) == n;
    } else {
      assert NumberText(n) == digits;
      ParseUnsigned(digits);
      assert ParseNumber(digits) == n;
    }
  }

  /** `${card.params.steps}`: "undefined" when the card has no steps. */
  function StepsText(params: map<string, int>): string {
    if "steps" in params then NumberText(params["steps"]) else "undefined"
  }

  /** Every summary reads "Effect: <words>." */
  function Summary(words: string): string {
    "Effect: " + words + "."
  }

  const DefaultEffectText := Summary("Adjust your position")

  predicate IsDescribedEffect(id: string) {
    id in {"go_to_end", "go_to_start", "lose_turn", "extra_turn", "roll_forward", "jump_forward", "go_back"}
  }

  /** `describeEffect(card)`: a summary for every card; ids outside the
      switch get the default summary. */
  function DescribeEffect(card: Card): (text: string)
    ensures |text| > 8 && text[..8] == "Effect: " && text[|text| - 1] == '.'
    ensures !IsDescribedEffect(card.id) <==> text == DefaultEffectText
  {
    var words :=
      if card.id == "go_to_end" then "Go to the secure end"
      else if card.id == "go_to_start" then "Return to start"
      else if card.id == "lose_turn" then "Lose your next turn"
      else if card.id == "extra_turn" then "Take another turn"
      else if card.id == "roll_forward" then "Roll and move forward"
      else if card.id == "jump_forward" then "Move forward " + StepsText(card.params)
      else if card.id == "go_back" then "Move back " + StepsText(card.params)
      else "Adjust your position";
    assert IsDescribedEffect(card.id) ==> words[0] != 'A';
    assert Summary(words)[8] == words[0];
    Summary(words)
  }

  lemma SummaryShowsNumber(prefix: string, n: int)
    ensures var text := Summary(prefix + NumberText(n));
            8 + |prefix| < |text| && ParseNumber(text[8 + |prefix| .. |text| - 1]) == n
  {
    var text := Summary(prefix + NumberText(n));
    assert text == "Effect: " + prefix + NumberText(n) + ".";
    assert text[8 + |prefix| .. |text| - 1] == NumberText(n);
    NumberTextRoundTrip(n);
  }

  /** The summary of a moving card shows its step count: the text between
      the fixed words and the final full stop reads back as `params.steps`. */
  lemma DescribeEffectShowsSteps(card: Card)
    requires (card.id == "jump_forward" || card.id == "go_back") && "steps" in card.params
    ensures var text := DescribeEffect(card);
            var start := if card.id == "jump_forward" then 21 else 18;
            start < |text| && ParseNumber(text[start..|text| - 1]) == card.params["steps"]
  {
    var n := card.params["steps"];
    if card.id == "jump_forward" {
      assert DescribeEffect(card) == Summary("Move forward " + NumberText(n));
      SummaryShowsNumber("Move forward ", n);
    } else {
      assert DescribeEffect(card) == Summary("Move back " + NumberText(n));
      SummaryShowsNumber("Move back ", n);
    }
  }
}
