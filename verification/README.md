# Gin Rummy card counter, modelled in Dafny

This project models `CardCounter`, the hidden-information tracker of a Gin
Rummy agent. The counter consumes the public events of one deal in order:
the deal, the first face-up card, draws and discards. From them it keeps
five card sets (my hand, my rejects, the opponent's known hand, the
opponent's rejects, the unseen cards), the discard pile as a stack, and the
number of cards left in the face-down draw pile.

Files:

- `cards.dfy` (module `Cards`): the card universe (a card is its index
  0..51 in the deck table `Card.allCards`), `NUM_CARDS = 52` and
  `HAND_SIZE = 10`.
- `wrappers.dfy` (module `Wrappers`): `Option` stands in for a nullable card,
  and `Result` stands in for a thrown exception.
- `card_counter.dfy` (module `CardCounter`): the immutable `State` and one
  pure function per operation. `Reset`, `ReportFirstFaceUpCard`,
  `ReportDraw` and `ReportDiscard` are the public operations.
  `IsMe`, `IsFaceUpCard` and `UpdatePilesAndRejects` are the private helpers.
  `ScanUnseen` is the deck scan of `reset`. `Step` and `Run` feed a stream
  of events to the operations.
- `properties.dfy` (module `CounterProperties`): properties spanning several
  events. A deal forgets all earlier state. Rejects only grow and unseen
  cards only shrink. My hand never meets the unseen cards. The unseen cards
  are described from the events alone. A legal event stream keeps the card
  placement consistent.
- `scenario.dfy` (module `CounterScenario`): the unit test's end-to-end game
  on concrete cards, checked after every event.

The accessors (`getMyHand`, `getDiscardPile`, ...) are the fields of
`State`. State values are immutable, so callers cannot change the counter
through them.

Behaviour of `CardCounter.java` worth knowing:

- `reportFirstFaceUpCard` checks only that the discard pile is empty. It
  does not check that it is the first call of the deal. After the first
  card has been drawn back off the pile, a second "first" card is accepted
  (`FirstFaceUpAcceptedAgainOnEmptyPile`).
- The counter checks no event for plausibility. When the event stream is
  legal, every card lies in exactly one of my hand, the opponent's known
  hand, the discard pile and the unseen cards (`Legal`,
  `LegalGameConsistent`). Under every stream, legal or not, neither known
  hand shares a card with the unseen cards.
- The opponent's number is `(p + 1) % 2` with Java's truncating `%`, so for
  `p = -1` it is `0`. `isMe` compares with this agent's number only, so any
  other number counts as the opponent, not only the stored opponent number.

## Model

| member | source | states |
|---|---|---|
| CardCounter.OpponentOf | src/ginrummy/util/CardCounter.java:42 | the opponent number computed with Java's truncating remainder is never this agent's number, lies in -1..1, and is 1 for player 0 and 0 for players 1 and -1 |
| CardCounter.UnseenAfterDeal | src/ginrummy/util/CardCounter.java:49-54 | after the deal a card is unseen exactly when it is not in the dealt hand; there are 52 − \|hand\| unseen cards |
| CardCounter.ScanUnseen | src/ginrummy/util/CardCounter.java:49-54 | the index-by-index scan of the deck table collects exactly the cards not in the hand, which is the loop form of `UnseenAfterDeal` and equal to it |
| CardCounter.IsMe | src/ginrummy/util/CardCounter.java:177-179 | a player number is "me" exactly when it equals this agent's number; a stored opponent number that differs from it is never "me" |
| CardCounter.IsFaceUpCard | src/ginrummy/util/CardCounter.java:181-185 | a drawn card counts as the face-up card exactly when it is present and equals the top of a non-empty discard pile; an absent card or an empty pile never does |
| CardCounter.Reset | src/ginrummy/util/CardCounter.java:35-55 | the new state holds the given hand and player number, the opponent number `OpponentOf(p)`, which differs from it, empty reject sets, an empty known opponent hand and discard pile, 32 cards to draw, and as unseen exactly the cards outside the hand, so no hand card is unseen |
| CardCounter.ReportFirstFaceUpCard | src/ginrummy/util/CardCounter.java:61-76 | fails exactly when the discard pile is non-empty; otherwise the pile becomes the one card, the draw pile shrinks by one, the card leaves the unseen cards and hands, rejects and player numbers are unchanged |
| CardCounter.UpdatePilesAndRejects | src/ginrummy/util/CardCounter.java:187-217 | a seen card leaves the unseen cards; drawing the face-up card pops the pile and keeps the draw count and rejects; any other draw keeps the pile, shrinks the draw pile by one and adds the face-up card (if any) to the drawer's reject set only |
| CardCounter.ReportDraw | src/ginrummy/util/CardCounter.java:82-92 | the pile, draw count, rejects and unseen cards change as for the bookkeeping step; my own drawn card joins my hand; an opponent's seen card joins the known opponent hand; an opponent's unseen draw changes neither hand |
| CardCounter.ReportDiscard | src/ginrummy/util/CardCounter.java:98-111 | the card becomes the new top with the old pile beneath it and the draw count unchanged; my discard leaves my hand and joins my rejects with the opponent's sets and unseen cards unchanged; an opponent discard joins the opponent's rejects and leaves the known opponent hand and the unseen cards, with my sets unchanged |
| CounterProperties.DealForgetsPriorState | src/ginrummy/util/CardCounter.java:35-55 | a deal succeeds and gives the same state whatever the counter held before; dealing the same hand again changes nothing |
| CounterProperties.DealCounts | src/ginrummy/util/CardCounter.java:48-54 | after dealing a 10-card hand there are 52 − 2·10 = 32 cards to draw and 42 unseen cards |
| CounterProperties.StepGrows | src/ginrummy/util/CardCounter.java:61-111 | no event other than a deal removes a card from either reject set or adds an unseen card; the player numbers stay unchanged |
| CounterProperties.RunGrows | src/ginrummy/util/CardCounter.java:61-111 | within a deal, both reject sets only grow and the unseen cards only shrink over any event stream |
| CounterProperties.RunKeepsPlayers | src/ginrummy/util/CardCounter.java:61-111 | within a deal, no event changes this agent's or the opponent's stored number |
| CounterProperties.DealtPlayersStayApart | src/ginrummy/util/CardCounter.java:35-179 | throughout a deal, the dealt number is "me", the stored opponent number is `OpponentOf(p)`, and that number is never "me" |
| CounterProperties.StepKeepsHandUnseen | src/ginrummy/util/CardCounter.java:82-111 | every event, including a deal, keeps my hand and the opponent's known hand disjoint from the unseen cards |
| CounterProperties.RunKeepsHandUnseen | src/ginrummy/util/CardCounter.java:82-111 | the disjointness of both known hands from the unseen cards survives any event stream |
| CounterProperties.DealtHandNeverUnseen | src/ginrummy/util/CardCounter.java:35-111 | in every state reached after a deal, no card of my hand or of the opponent's known hand is unseen |
| CounterProperties.RunUnseenIsUnwitnessed | src/ginrummy/util/CardCounter.java:61-111 | within a deal the unseen cards are those unseen at the start minus the cards witnessed since: the first face-up card, every reported drawn card and every opponent discard |
| CounterProperties.UnseenAfterDealAndEvents | src/ginrummy/util/CardCounter.java:35-111 | after a deal and further events a card is unseen exactly when it is neither in the dealt hand nor witnessed since |
| CounterProperties.DrawKeepsConsistent | src/ginrummy/util/CardCounter.java:82-92 | a legal draw keeps every card in exactly one of my hand, the opponent's known hand, the discard pile and the unseen cards, and the pile free of duplicates |
| CounterProperties.DiscardKeepsConsistent | src/ginrummy/util/CardCounter.java:98-111 | a legal discard keeps every card in exactly one of my hand, the opponent's known hand, the discard pile and the unseen cards, and the pile free of duplicates |
| CounterProperties.StepKeepsConsistent | src/ginrummy/util/CardCounter.java:35-111 | every legal event, the deal included, keeps every card in exactly one view and the pile free of duplicates |
| CounterProperties.RunKeepsConsistent | src/ginrummy/util/CardCounter.java:35-111 | a legal event stream from a state where every card is in exactly one view keeps that so throughout |
| CounterProperties.LegalGameConsistent | src/ginrummy/util/CardCounter.java:35-111 | in every state a legal game reaches after a deal, each of the 52 cards is in exactly one of my hand, the opponent's known hand, the discard pile and the unseen cards, and no card is twice on the pile |
| CounterProperties.DiscardThenTakeBack | src/ginrummy/util/CardCounter.java:181-200 | a discard taken straight back by the next draw restores the discard pile and draw count and adds no reject |
| CounterProperties.PassingOverFaceUpCard | src/ginrummy/util/CardCounter.java:201-216 | drawing a card other than the face-up one keeps the pile, shrinks the draw pile by one and makes the face-up card the drawer's reject |
| CounterProperties.FirstFaceUpAcceptedAgainOnEmptyPile | src/ginrummy/util/CardCounter.java:61-76 | once the first face-up card has been drawn back off the pile, another first face-up card is accepted and the draw count falls to 30 |
| CounterScenario.ScenarioDeal | test/ginrummy/util/CardCounterTests.java:110-112 | dealing cards 0-9 gives 32 cards to draw, 42 unseen cards and empty piles and rejects |
| CounterScenario.ScenarioFaceUp | test/ginrummy/util/CardCounterTests.java:114-119 | turning up card 20 gives the expected state, and a second report on the non-empty pile fails |
| CounterScenario.ScenarioMyBlindDrawAndDiscard | test/ginrummy/util/CardCounterTests.java:121-135 | my blind draw of 21 rejects 20, and my discard of 0 gives the expected state |
| CounterScenario.ScenarioOpponentBlindDrawAndDiscard | test/ginrummy/util/CardCounterTests.java:137-152 | the opponent's unseen draw rejects 0 and its discard of 15 makes 15 seen |
| CounterScenario.ScenarioMyPileDrawAndDiscard | test/ginrummy/util/CardCounterTests.java:154-169 | my draw of 15 from the pile and my discard of 1 give the expected state |
| CounterScenario.ScenarioOpponentPileDrawAndDiscard | test/ginrummy/util/CardCounterTests.java:171-186 | the opponent's draw of 1 from the pile and its discard of 16 give the expected state |
| CounterScenario.ScenarioMiddle | test/ginrummy/util/CardCounterTests.java:137-160 | from my first discard, the opponent's blind draw and discard of 15 and my taking 15 from the pile lead to the expected state |
| CounterScenario.ScenarioRun | test/ginrummy/util/CardCounterTests.java:104-192 | the whole test game run as one event stream ends in the expected state, and a new deal afterwards gives a fresh state |

## Left out

- Card identity: `Card` belongs to an external library. Cards are modelled as their indices 0..51 in the deck table; rank and suit are not modelled.
- `Utils.isGin`, `Utils.getBestMelds`, `Utils.numCardsInMelds`: they forward to an external meld algorithm whose source is not part of this model. Only `HAND_SIZE = 10` is kept.
- `toString`: string formatting only.
- The `Collections.unmodifiable*` wrappers of the accessors: the model's values are immutable, so nothing can be changed through them.
- The test's `getMyKnownHand` accessor: `CardCounter` has no such accessor.
- The test's random shuffle and random player number: the scenario uses fixed cards and an arbitrary player number instead.
- CardCounter.ReportDraw: requires a card when this agent draws. Java would put `null` into the hand set, which a set of cards cannot hold. `Step` refuses such an event with `OwnDrawWithoutCard` instead.
- A `null` card passed to `reportFirstFaceUpCard` or `reportDiscard`: these cards are always present in the model.
- The exception class of `reportFirstFaceUpCard` (`UnsupportedOperationException`) and its message: modelled as `Err(NotFirstFaceUpCard(card))`. The state stays as it was.
- A draw pile count that never goes negative: the code never guards the decrement, so no such guarantee is stated.
- The 32-bit range of `int`: a draw count or player number near the limits of `int` is not modelled. The truncating `%` is modelled, and wrapping `p + 1` would not change its parity.
- Conservation of all 52 cards across my hand, the discard pile, the draw pile and the opponent's hidden cards: the counter does not track the opponent's hand size.
- A counter that has never been reset: in Java its sets and stack are `null` until `reset`, so any report before it throws `NullPointerException`. The model has no such state. `Step`, `Run` and the lemmas about runs accept any `State`, so reports before the first `reset` are outside the model.
- Concurrency: the counter is single-threaded and has none.
