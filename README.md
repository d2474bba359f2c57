# Pipeline board game: a verified model of its two rules engines

The game is a one-track board game. A token rolls a six-sided die and moves
towards the last space. On a "good" or "bad" space it draws a card from the
matching deck. The card moves the token, makes the player skip a turn, or
grants a bonus. The repository holds two independent versions of the rules,
and this project models each as written without reconciling them:

- **Browser engine** (`public/game.js`), in modules `BrowserDeck`,
  `BrowserText` and `BrowserEngine`:
  - deck construction (`buildDeck`);
  - the in-place Fisher-Yates `shuffle`;
  - `drawCard`, which refills an empty pile from a shuffled copy of the
    original cards and gives pinned cards one hop to the back;
  - card-text lookup (`pickCardText`) and the effect summary
    (`describeEffect`);
  - the game state of `createGame`, with `handleRoll`, `resolveSpace`,
    `applyCardEffect`, `rollDie` and the step list of `moveToIndex`.
- **Headless simulator** (`simulate.py`), in modules `SimDeck`, `SimCards`
  and `SimGame`:
  - the `Deck` class (`__init__`, `from_spec`, `draw`), which keeps a
    cycling index and reshuffles when the index wraps;
  - `resolve_card`;
  - `simulate_game`: its board check, its set-up, and one pass of its turn
    loop.

`Support` holds what both versions share: deck-specification entries,
JSON truthiness, and how a uniform draw in [0, 1) picks one of `n` outcomes.

Randomness is an input. Each `Math.random()` or `rng.randint` result is a
real parameter `u` with `0 <= u < 1`, turned into an integer by
`floor(u * n)`. The browser's `shuffle` swaps with an index chosen by
`:|`, and the simulator's `rng.shuffle` is any permutation of its list, so
the proofs hold for every possible random outcome.

The two versions differ, and the model keeps the differences:
- An entry without `count` gives 0 copies in the browser and 1 in the
  simulator.
- An unknown card id is a no-op in the browser and an error (`UnknownCard`)
  in the simulator.
- The browser deck takes cards from the front of a pile and refills it when
  it is empty. The simulator deck walks an index over a fixed list and
  reshuffles the whole list when the index wraps.
- Only the simulator knows the cards `roll_back`, `counter_next_bad` and
  `jump_next_neutral`, and only the simulator has several players.

Where the code's behaviour may be unexpected, the model follows the code:
- The browser engine has no reentrancy flag and no separate "won" state. A
  win is the token reaching the last space (`TurnReport.Won`).
- A negative `count` is not rejected: it gives no copies.
- The browser does not check the board layout.
- A lone pinned card is handed out itself. It is not reshuffled first.
- An existing but empty text list for a card id does not fall back to the
  generic list. It gives the fixed "Pipeline Surprise" text.
- The browser's `extra_turn` card changes nothing. Its `extraTurn` field is
  set once and never read.

The simulator's exceptions are values of `SimDeck.SimError`:
- an empty deck;
- `go_back` without steps;
- an empty `randint` range;
- an unknown card;
- an empty board or a wrong board layout;
- no players.

## Model

| member | source | states |
|---|---|---|
| Support.RandomIndex | public/game.js:75 | `Math.floor(Math.random() * n)` is an index below `n` |
| Support.RandomIndexCovers | public/game.js:75 | every index below `n` is chosen by some draw, so no option is out of reach |
| Support.RandInt | simulate.py:87 | `rng.randint(lo, hi)` lies in the closed range `[lo, hi]` |
| Support.RollD6 | public/game.js:365-367 | a die roll (`rollDie`, `roll_d6`) is between 1 and 6 |
| Support.Truthy | public/game.js:41 | `!!entry.pin_last` (and `bool(card_spec.get("pin_last", False))` in simulate.py:33): absent, null, false, 0 and "" are false, every other value true |
| BrowserDeck.CardOf | public/game.js:41 | the card pushed for an entry: its id, its `params` or `{}` when absent, and `pinLast` the truthiness of `pin_last` |
| BrowserDeck.Copies | public/game.js:40 | how often `i < entry.count` holds: `count` copies for a positive count, none for a missing or non-positive one |
| BrowserDeck.TotalCopies | public/game.js:39-43 | the number of pushes over the whole specification: the sum of `Copies` |
| BrowserDeck.Expand | public/game.js:37-45 | the deck `buildDeck` returns: each entry's `Copies` copies of `CardOf(entry)`, entry after entry in specification order (the definition `BuildDeck`, `ExpandLength`, `ExpandBlock` and `ExpandMembers` are about) |
| BrowserDeck.BuildDeck | public/game.js:37-45 | the push loops produce exactly `Expand(spec)`: each entry's copies in specification order, `params` defaulting to `{}`, `pinLast` the truthiness of `pin_last`, and Σ counts cards in all |
| BrowserDeck.ExpandLength | public/game.js:37-45 | the deck has as many cards as the positive counts add up to |
| BrowserDeck.ExpandBlock | public/game.js:39-43 | entry `k` fills exactly the slice after the cards of entries `0..k-1`, with `count` copies of its card |
| BrowserDeck.ExpandMembers | public/game.js:40-41 | a card is in the deck iff some entry with a positive count produces it (a missing or non-positive count produces nothing) |
| BrowserDeck.Shuffle | public/game.js:47-53 | the swap loop rearranges the array in place and returns that same array; the multiset of elements is kept; arrays of length 0 or 1 are untouched |
| BrowserDeck.ShuffledCopy | public/game.js:57 | `shuffle(original.slice())` has the same cards as `original`, which it leaves untouched |
| BrowserDeck.DeckState.constructor | public/game.js:182-189 | a deck state holds the built card list and an empty pile, whose cards are among the originals |
| BrowserDeck.DrawFrom | public/game.js:60-66 | exactly one card leaves the pile (multiset difference); an unpinned front card is returned; a pinned front card goes to the back and the next card is returned (one hop only); a lone pinned card is returned itself |
| BrowserDeck.ShiftCard | public/game.js:60-66 | the `shift()`/`push()`/`shift()` steps on a non-empty pile give exactly `DrawFrom` of it |
| BrowserDeck.DrewFrom | public/game.js:55-66 | one `drawCard` from pile `before` to pile `after`: the pile drawn from is `before`, or a shuffled copy of `original` when `before` is empty, and card and rest are `DrawFrom` of it (the definition the deck clauses of `PlayFrom`, `ResolveSpace` and `HandleRoll` use) |
| BrowserDeck.DrawCard | public/game.js:55-67 | an empty pile is refilled with a shuffled copy of `original` first; then the card and the new pile are `DrawFrom` of that pile (`DrewFrom`); the card comes from `original`; with no cards at all nothing is drawn and the pile is unchanged |
| BrowserText.PickCardText | public/game.js:69-76 | the text comes from `cards[type][id]` when that key exists, else from `cards[type].generic`; an empty or missing list gives the fixed "Pipeline Surprise" pair |
| BrowserText.EmptyListDoesNotFallBack | public/game.js:71 | an existing but empty list for the id is used as it is: the generic list is not consulted |
| BrowserText.TextOptions | public/game.js:70-71 | the list `pickCardText` chooses from: the id's own list when the key exists (even empty), else the generic list, else none (the definition `PickCardText` and `EmptyListDoesNotFallBack` are about) |
| BrowserText.NaturalText | public/game.js:91 | a number is printed as a non-empty string of decimal digits |
| BrowserText.NumberText | public/game.js:91-93 | `${n}` for an integer: its decimal digits, after a minus sign when negative (the definition `NumberTextRoundTrip` is about) |
| BrowserText.NaturalTextRoundTrip | public/game.js:91 | the printed digits of a natural number parse back to that number |
| BrowserText.NumberTextRoundTrip | public/game.js:91-93 | the printed form of any integer (with a minus sign when negative) parses back to it |
| BrowserText.StepsText | public/game.js:91-93 | `${card.params.steps}`: the steps printed as `NumberText`, or "undefined" when the card has none (`DescribeEffectShowsSteps` reads the number back) |
| BrowserText.DescribeEffect | public/game.js:78-97 | every card id gets a summary "Effect: ….", and exactly the ids outside the switch get "Effect: Adjust your position." |
| BrowserText.SummaryShowsNumber | public/game.js:91-93 | in "Effect: <prefix><n>." the text after the prefix reads back as `n` |
| BrowserText.DescribeEffectShowsSteps | public/game.js:90-93 | the summary of `jump_forward` or `go_back` shows the card's `steps` after its fixed words |
| BrowserEngine.RollTarget | public/game.js:279 | the roll's target is `currentIndex + roll` clamped to the last space |
| BrowserEngine.EffectIndex | public/game.js:308-363 | `go_to_end` goes to the last space, `go_to_start` to 0, `roll_forward` and `jump_forward` clamp up at the last space, `go_back` clamps down at 0, other cards stay; from a space on the board the result stays on the board |
| BrowserEngine.EffectWins | public/game.js:310-352 | the cards after which `applyCardEffect` declares a win: `go_to_end` always, `roll_forward` and `jump_forward` when the token reaches the last space, no other card |
| BrowserEngine.Path | public/game.js:593-597 | the step list has `\|target − current\|` entries; its k-th entry lies k + 1 spaces from the start, between the endpoints, so it runs one space at a time from the start's neighbour in the target's direction and ends on the target |
| BrowserEngine.StepList | public/game.js:593-597 | the `for` loop builds exactly `Path(current, target)` |
| BrowserEngine.GameState.constructor | public/game.js:165-193 | the token starts on space 0 with no turns, no roll and no flags; each deck's original is built from its specification and its pile is a shuffled copy |
| BrowserEngine.GameState.MoveToIndex | public/game.js:586-634 | the token ends on the target after the step list `Path(current, target)`; a move to the current space has no steps |
| BrowserEngine.GameState.ApplyCardEffect | public/game.js:308-363 | the token moves to `EffectIndex` along its path; only `lose_turn` sets the skip flag; a win is declared exactly for `go_to_end` and for forward cards that reach the last space; the board invariant is kept |
| BrowserEngine.GameState.PlayCard | public/game.js:298-300 | a drawn card's text is `PickCardText` for the space type and its summary `DescribeEffect`; then it is applied as `ApplyCardEffect` says |
| BrowserEngine.GameState.PlayFrom | public/game.js:295-301 | a good or bad space draws from the given deck exactly as `drawCard` does (`DrewFrom`: the dealt card and the new pile, including a pinned card's move to the back), or draws nothing from an empty specification and leaves the deck unchanged; then the card's text and summary are picked and it is applied: the token moves to `EffectIndex`, the skip flag is set only by `lose_turn`, and the turn is won iff the token ends on the last space |
| BrowserEngine.GameState.ResolveSpace | public/game.js:286-306 | a win iff the token is on the last space; otherwise a good or bad space draws exactly one card from its own deck as `drawCard` does (`PilesAfter`/`DrewFrom`; the other deck untouched), picks its text and summary and applies it; any other space, and a space whose deck has no cards, changes no pile |
| BrowserEngine.PilesAfter | public/game.js:294-301 | what resolving a space does to the two piles: a played card was drawn (`DrewFrom`) from the deck of the space's type and the other pile is kept; no card, no change |
| BrowserEngine.GameState.HandleRoll | public/game.js:258-282 | every call counts one turn; a pending skip is cleared with no roll, no move and no draw; otherwise the roll is recorded, the token walks to `min(current + roll, last)`, and the space reached is resolved with all of `ResolveSpace`'s promises at that space: the piles as `PilesAfter` says, the card's text and summary, its effect and the skip flag; the turn is won iff the token ends on the last space |
| BrowserEngine.GameState.RollTurn | public/game.js:270-281 | the rolled branch of `handleRoll`, with the same promises as its row above |
| SimDeck.Copies | simulate.py:30-34 | `int(card_spec.get("count", 1))` iterations of `range`: one copy when the count is absent, none for a non-positive count |
| SimDeck.CardOf | simulate.py:31-35 | the card appended for an entry: its id and its `params`, `{}` when absent |
| SimDeck.TotalCopies | simulate.py:29-39 | the number of appends over the whole specification: the sum of `Copies` |
| SimDeck.Unpinned | simulate.py:29-39 | the list `cards` before the shuffle: the copies of the entries without `pin_last`, in specification order (the definition `SplitLength`, `SplitMembers` and `ExpandSpec` are about) |
| SimDeck.Pinned | simulate.py:29-39 | the list `pinned`: the copies of the entries with `pin_last`, in specification order (the definition `SplitLength`, `SplitMembers` and `ExpandSpec` are about) |
| SimDeck.SplitLength | simulate.py:29-39 | every copy goes to exactly one of the pinned and unpinned lists, so Σ counts cards in all (a missing count meaning 1) |
| SimDeck.SplitMembers | simulate.py:29-39 | every card in either list is the card of some specification entry |
| SimDeck.ExpandSpec | simulate.py:27-39 | the append loops give the unpinned and the pinned copies, each in specification order |
| SimDeck.RngShuffle | simulate.py:40 | `rng.shuffle` keeps the multiset of cards |
| SimDeck.DealOrder | simulate.py:40-41 | the order `from_spec` leaves the cards in: a permutation of `Unpinned(spec)`, then exactly `Pinned(spec)` (used by `FromSpec`, `FirstPass` and `Simulation.Start`) |
| SimDeck.Deck.constructor | simulate.py:20-23 | a new deck holds the given cards with its index at 0 |
| SimDeck.Deck.FromSpec | simulate.py:25-42 | the deck holds Σ counts cards: a permutation of the unpinned copies, then the pinned copies in specification order; the index starts at 0 |
| SimDeck.Deck.Draw | simulate.py:44-52 | an empty deck fails; otherwise the card at the index is returned and the index advances, wrapping to 0 (with a reshuffle) exactly when it reaches the end (`Advanced`); the index stays on a card and the multiset of cards never changes |
| SimDeck.Advanced | simulate.py:44-52 | the deck after one `draw()`: unchanged list and index + 1 before the last card, index 0 and the same cards reshuffled after it, an empty deck as it was |
| SimDeck.FirstPass | simulate.py:40-52 | dealing a fresh deck once round yields the unpinned cards first, in some order, and the pinned cards last |
| SimCards.NeutralScan | simulate.py:89-93 | the scan stops at the first "neutral" space after the position, or at `end_index` if none comes first; every space passed over is not neutral |
| SimCards.NextNeutral | simulate.py:90-92 | the `while` scan stops where `NeutralScan` says |
| SimCards.JumpLo | simulate.py:87 | `int(params.get("min", 1))`: the `min` parameter, 1 when absent |
| SimCards.JumpHi | simulate.py:87 | `int(params.get("max", 3))`: the `max` parameter, 3 when absent |
| SimCards.CardEffect | simulate.py:55-99 | exactly three errors, each iff its condition: an unknown id, `go_back` without steps, and a `jump_forward` without steps whose `randint` range `[min, max]` (defaults 1 and 3) is empty; no other error; the flag cards set their flag without moving; `go_back` lands on `max(0, position - steps)`, `jump_forward` with steps on `min(end_index, position + steps)`; `roll_back` moves back by a die value 1..6 clamped at 0, `roll_forward` forward by 1..6 clamped at `end_index`, a `jump_forward` without steps forward by a value in `[min, max]` clamped at `end_index`; `go_to_start`, `go_to_end` and `jump_next_neutral` land on 0, `end_index` and the first neutral space; for a position on the board and sound steps the result stays on the board |
| SimCards.ResolveCard | simulate.py:55-99 | the `if` chain computes `CardEffect` |
| SimGame.CheckBoard | simulate.py:103-107 | a board passes iff it has at least two spaces, the first "start" and the last "end"; `end_index` is the last index; an empty board fails on the first lookup |
| SimGame.InitialTable | simulate.py:112-119 | the starting tables (all zero, no flags, player 0, no winner) satisfy the invariant of the tables |
| SimGame.EndTurn | simulate.py:151-160 | how a pass ends once the token rests: a win at the end space, a replay with the count taken back after an extra turn, else the next player (the definition `EndTurnOk`, `EndTurnLocal` and `EndTurnHandsOn` are about) |
| SimGame.Abandoned | simulate.py:123-149 | the tables an exception leaves: the current player's turn counted and token on the rolled space, everything else as it was (used by `PlayCardStep` and `Simulation.Abandon`) |
| SimGame.CountDraw | simulate.py:135-146 | `good_draws[current] += 1` or `bad_draws[current] += 1`: one more draw for the current player from that deck (the counter `DrawsCounted` is about) |
| SimGame.Landed | simulate.py:128-129 | where the roll puts the current player's token: `min(end_index, position + roll)` (used by `RolledStep` and `Simulation.Roll`) |
| SimGame.PlayCardStep | simulate.py:135-149 | a draw from the good or bad deck, counted, then `resolve_card`; an empty deck or a failing card raises (the definition `PlayCardStepOk`, `PlayCardStepLocal`, `PlayCardStepHandsOn` and `DrawsCounted` are about) |
| SimGame.RolledStep | simulate.py:127-153 | a pass without a pending skip: the roll and its win check, then a good space draws, an unshielded bad space draws, a shielded bad space spends the shield, any other space does nothing (the definition `Simulation.Roll` is proved against) |
| SimGame.TurnStep | simulate.py:121-160 | one pass of the loop: a pending skip is spent, otherwise `RolledStep` (the definition `SkippedTurn`, `ShieldSpent`, `WinnerExactlyAtEnd`, `ExtraTurnReplays`, `DrawsCounted`, `TurnStepKeepsTableOk` and `TurnStepTouchesCurrentOnly` are about) |
| SimGame.EndTurnOk | simulate.py:151-160 | ending a turn on a space of the board keeps the invariant of the tables |
| SimGame.PlayCardStepOk | simulate.py:135-153 | drawing and resolving a card keeps the invariant of the tables, and an exception leaves no winner |
| SimGame.TurnStepKeepsTableOk | simulate.py:121-160 | a pass keeps the tables' invariant: tokens on the board, no unspent extra turn, and a winner only on the end space; an exception never leaves a winner |
| SimGame.TurnStepTouchesCurrentOnly | simulate.py:122-149 | a pass changes only the current player's entries in every table |
| SimGame.EndTurnLocal | simulate.py:151-160 | ending a turn changes only the current player's entries |
| SimGame.PlayCardStepLocal | simulate.py:135-149 | drawing and resolving a card changes only the current player's entries |
| SimGame.SkippedTurn | simulate.py:123-126 | a set `skip_next` is cleared, the turn is counted, nothing moves or is drawn, and play passes on |
| SimGame.ShieldSpent | simulate.py:141-143 | `counter_bad` on a bad space is spent instead of drawing: no bad card, bad draws unchanged |
| SimGame.WinnerExactlyAtEnd | simulate.py:128-153 | a winner is set exactly when the current player's token reaches `end_index`, by the roll (before any card) or by the card |
| SimGame.EndTurnHandsOn | simulate.py:155-160 | short of the end, a set `extra_turn` is cleared and the same player goes again with the turn taken back; otherwise the turn counts and play passes to `(current + 1) % players` |
| SimGame.ExtraTurnOnlyFromCard | simulate.py:81-82 | from flags without an extra turn, a resolved card sets `extra_turn` iff it is the `extra_turn` card |
| SimGame.PlayCardStepHandsOn | simulate.py:135-160 | after a card that neither fails nor wins, the same player goes again exactly when the card was `extra_turn`; otherwise play passes on |
| SimGame.ExtraTurnReplays | simulate.py:155-160 | the same player goes again, with the turn count taken back, exactly when an `extra_turn` card was resolved; otherwise the turn counts and play passes to `(current + 1) % players` |
| SimGame.DrawsCounted | simulate.py:135-149 | a draw counter goes up by one exactly when that deck dealt a card, and the card dealt is the deck's next card |
| SimGame.Simulation.constructor | simulate.py:112-119 | the tables start as `InitialTable` and the invariant holds |
| SimGame.Simulation.Start | simulate.py:102-119 | a bad board fails with its error and no players fails; otherwise both decks are dealt by `from_spec` and the tables start at `InitialTable` |
| SimGame.Simulation.Finish | simulate.py:151-160 | the end of a pass is `EndTurn`: a win at the end space, a replay after an extra turn, otherwise the next player |
| SimGame.Simulation.Abandon | simulate.py:123-140 | an exception leaves the tables as `Abandoned` says: the turn counted and the token on the rolled space |
| SimGame.Simulation.DrawFor | simulate.py:136-137 | the deck deals its next card (or fails when empty), moves on as `Advanced` says, and the draw is counted for the current player |
| SimGame.Simulation.PlayCard | simulate.py:135-149 | drawing and resolving a card is `PlayCardStep`, and the deck drawn from moves on as `Advanced` says |
| SimGame.Simulation.Roll | simulate.py:128-153 | the rolled part of a pass is `RolledStep`: a win at the end, a card on a good space or an unshielded bad space, a spent shield on a shielded bad space; the deck drawn from moves on as `Advanced` says and the other is unchanged |
| SimGame.Simulation.Turn | simulate.py:121-160 | one pass of the loop is `TurnStep` on the tables; the deck drawn from (if any) changes exactly as one `draw()` does (`Advanced`), the other deck is unchanged, and the cards of both are kept as multisets |

## Left out

- Phaser rendering, tweens and the card overlay are left out, along with the
  DOM status line, the roll button, the win dialog, `loadData` and
  `getVariantFile`. These are presentation and I/O. The card shown to the
  player is returned in the turn report instead.
- The `async`/`await` suspension points are left out. Each awaited call
  becomes a plain sequential call. The code has no guard against a second
  roll during the animation, so the model has none either.
- Probability claims are left out: uniform shuffles, fair dice, even text
  choice. Random values are arbitrary inputs in their ranges, and a shuffle
  may produce any permutation.
- The simulator's `while winner is None` loop is not modelled as a whole,
  because its termination depends on the dice. `SimGame.Simulation.Turn`
  models one pass of it.
- `simulate`, `main`, `run_variants.py` and `vite.config.js` are not part of
  this model. They are statistics over floats, argument parsing, file I/O
  and build configuration.
- The simulator draws every random number from one shared generator. The
  model gives each use its own draw (`rollDraw`, `cardDraw`) and treats
  every reshuffle as an arbitrary permutation. The order in which the
  generator is consumed is not modelled.
- BrowserEngine.GameState.constructor requires every `jump_forward` and
  `go_back` card to carry a non-negative `steps`, and the board to have at
  least one space. Without `steps` the source computes `NaN` as the new
  index. Large negative steps or an empty board can put the token off the
  board. The requirement also rules out small negative steps, which the
  source runs without trouble: a `go_back` of −1 moves the token one space
  forward.
- BrowserEngine.GameState.ApplyCardEffect and BrowserEngine.EffectIndex
  require the same `steps` condition (`CardOk`) of the card they apply.
- BrowserDeck.DrawCard reports "no card" on a deck built from an empty
  specification. There the source throws a `TypeError` when it reads
  `pinLast` of `undefined`.
- SimGame.Simulation.Start requires `steps` (and a `jump_forward`'s `min`)
  to be non-negative. A negative `jump_forward` value can move a token
  below 0, and Python's negative indexing would then read the board from
  its end. A negative `go_back` `steps` moves a token forward with no clamp
  at `end_index`, so it could pass the end space.
- SimCards.CardEffect requires a non-negative position and
  `end_index = len(spaces) - 1`. These are the only arguments
  `simulate_game` passes.
- Counts and parameters are integers. Non-integer JSON numbers, and strings
  that `int()` would convert, are not modelled.
- BrowserText.NaturalText prints integers in plain decimal. JavaScript uses
  an exponent from 10^21 upwards, which this does not capture.
- The per-player tables are modelled as sequences. The Python dictionaries
  holding a player's flags are records in a sequence that the turn
  replaces. A card's `params` dictionary, which all copies share in Python,
  is a value here; nothing ever mutates it.
