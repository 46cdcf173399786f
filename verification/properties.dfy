/** Properties of the card counter that relate several events: what a new
    deal forgets, what grows and shrinks monotonically, which invariants
    every event keeps, and an independent description of the unseen cards. */
module CounterProperties {
  import opened Cards
  import opened Wrappers
  import opened CardCounter

  /** No event of the sequence starts a new deal. */
  predicate WithinDeal(events: seq<Event>) {
    forall i :: 0 <= i < |events| ==> !events[i].Deal?
  }

  // ---------------------------------------------------------------------
  // A new deal
  // ---------------------------------------------------------------------

  /** A deal yields the same state whatever the counter held before, and
      dealing the same hand again changes nothing. */
  lemma DealForgetsPriorState(s1: State, s2: State, p: int, hand: set<Card>)
    ensures Step(s1, Deal(p, hand)) == Step(s2, Deal(p, hand))
    ensures Step(s1, Deal(p, hand)).Ok?
    ensures Step(Step(s1, Deal(p, hand)).value, Deal(p, hand)) == Step(s1, Deal(p, hand))
  {
  }

  /** A deal of a full hand leaves 32 cards in the draw pile and 42 unseen. */
  lemma DealCounts(p: int, hand: set<Card>)
    requires |hand| == HAND_SIZE
    ensures Reset(p, hand).drawPileSize == NUM_CARDS - 2 * HAND_SIZE == 32
    ensures |Reset(p, hand).unseenCards| == NUM_CARDS - HAND_SIZE == 42
  {
  }

  // ---------------------------------------------------------------------
  // Monotonicity within a deal
  // ---------------------------------------------------------------------

  /** From `s` to `t` the reject sets only grew and the unseen cards only
      shrank. */
  predicate Grew(s: State, t: State) {
    && s.myRejects <= t.myRejects
    && s.opRejects <= t.opRejects
    && t.unseenCards <= s.unseenCards
  }

  /** No event other than a deal removes a card from either reject set or
      adds an unseen card; the player numbers stay as dealt. */
  lemma StepGrows(s: State, e: Event)
    requires !e.Deal?
    ensures Step(s, e).Ok? ==> Grew(s, Step(s, e).value)
    ensures Step(s, e).Ok? ==> Step(s, e).value.myNumber == s.myNumber
    ensures Step(s, e).Ok? ==> Step(s, e).value.opNumber == s.opNumber
  {
  }

  /** Within one deal, rejects only grow and unseen cards only shrink. */
  lemma {:induction false} RunGrows(s: State, events: seq<Event>)
    requires WithinDeal(events)
    ensures Run(s, events).Ok? ==> Grew(s, Run(s, events).value)
    decreases |events|
  {
    if |events| > 0 && Step(s, events[0]).Ok? {
      var t := Step(s, events[0]).value;
      StepGrows(s, events[0]);
      assert WithinDeal(events[1..]) by {
        forall i | 0 <= i < |events[1..]| ensures !events[1..][i].Deal? {
          assert events[1..][i] == events[i + 1];
        }
      }
      RunGrows(t, events[1..]);
    }
  }

  /** Within a deal, the player numbers stay as they were. */
  lemma {:induction false} RunKeepsPlayers(s: State, events: seq<Event>)
    requires WithinDeal(events)
    ensures Run(s, events).Ok? ==>
      Run(s, events).value.myNumber == s.myNumber && Run(s, events).value.opNumber == s.opNumber
    decreases |events|
  {
    if |events| > 0 && Step(s, events[0]).Ok? {
      StepGrows(s, events[0]);
      assert WithinDeal(events[1..]) by {
        forall i | 0 <= i < |events[1..]| ensures !events[1..][i].Deal? {
          assert events[1..][i] == events[i + 1];
        }
      }
      RunKeepsPlayers(Step(s, events[0]).value, events[1..]);
    }
  }

  /** Throughout a deal, the dealt player number is "me" and the stored
      opponent number never is. */
  lemma DealtPlayersStayApart(s: State, p: int, hand: set<Card>, events: seq<Event>)
    requires WithinDeal(events)
    ensures Run(s, [Deal(p, hand)] + events).Ok? ==>
      var t := Run(s, [Deal(p, hand)] + events).value;
      IsMe(t, p) && t.opNumber == OpponentOf(p) && !IsMe(t, t.opNumber)
  {
    var all := [Deal(p, hand)] + events;
    assert all[0] == Deal(p, hand) && all[1..] == events;
    RunKeepsPlayers(Reset(p, hand), events);
  }

  // ---------------------------------------------------------------------
  // My hand never holds an unseen card
  // ---------------------------------------------------------------------

  /** Neither my hand nor the opponent's known hand holds an unseen card. */
  predicate KnownNotUnseen(s: State) {
    s.myHand !! s.unseenCards && s.opKnownHand !! s.unseenCards
  }

  /** Every event keeps both known hands apart from the unseen cards: a
      drawn card leaves the unseen cards as it enters a hand, a deal starts
      the opponent's known hand empty, and nothing but a deal adds an
      unseen card. */
  lemma StepKeepsHandUnseen(s: State, e: Event)
    requires KnownNotUnseen(s)
    ensures Step(s, e).Ok? ==> KnownNotUnseen(Step(s, e).value)
  {
  }

  /** The disjointness of both known hands from the unseen cards survives
      any run. */
  lemma {:induction false} RunKeepsHandUnseen(s: State, events: seq<Event>)
    requires KnownNotUnseen(s)
    ensures Run(s, events).Ok? ==> KnownNotUnseen(Run(s, events).value)
    decreases |events|
  {
    if |events| > 0 && Step(s, events[0]).Ok? {
      StepKeepsHandUnseen(s, events[0]);
      RunKeepsHandUnseen(Step(s, events[0]).value, events[1..]);
    }
  }

  /** In every state reached after a deal, no card of my hand or of the
      opponent's known hand is unseen. */
  lemma DealtHandNeverUnseen(s: State, p: int, hand: set<Card>, events: seq<Event>)
    ensures Run(s, [Deal(p, hand)] + events).Ok? ==>
      KnownNotUnseen(Run(s, [Deal(p, hand)] + events).value)
  {
    var all := [Deal(p, hand)] + events;
    assert all[0] == Deal(p, hand) && all[1..] == events;
    RunKeepsHandUnseen(Reset(p, hand), events);
  }

  // ---------------------------------------------------------------------
  // The unseen cards, described from the events alone
  // ---------------------------------------------------------------------

  /** The cards whose identity agent `me` witnessed during the events: the
      first face-up card, every drawn card it was told, and every card the
      opponent discarded. Cards it discards itself came from its hand. */
  function Witnessed(me: int, events: seq<Event>): set<Card>
    decreases |events|
  {
    if |events| == 0 then {}
    else
      var here := match events[0]
        case Deal(_, _) => {}
        case FirstFaceUp(c) => {c}
        case Draw(_, drawn) => if drawn.Some? then {drawn.value} else {}
        case Discard(p, c) => if p == me then {} else {c};
      here + Witnessed(me, events[1..])
  }

  /** Within a deal, the unseen cards are exactly those unseen at its start
      minus the cards witnessed since. */
  lemma {:induction false} RunUnseenIsUnwitnessed(s: State, events: seq<Event>)
    requires WithinDeal(events)
    ensures Run(s, events).Ok? ==>
      Run(s, events).value.unseenCards == s.unseenCards - Witnessed(s.myNumber, events)
    decreases |events|
  {
    if |events| > 0 && Step(s, events[0]).Ok? {
      var t := Step(s, events[0]).value;
      StepGrows(s, events[0]);
      assert WithinDeal(events[1..]) by {
        forall i | 0 <= i < |events[1..]| ensures !events[1..][i].Deal? {
          assert events[1..][i] == events[i + 1];
        }
      }
      RunUnseenIsUnwitnessed(t, events[1..]);
    }
  }

  /** After a deal of `hand`, a card is unseen exactly when it is neither in
      the dealt hand nor witnessed since the deal. */
  lemma UnseenAfterDealAndEvents(s: State, p: int, hand: set<Card>, events: seq<Event>)
    requires WithinDeal(events)
    ensures Run(s, [Deal(p, hand)] + events).Ok? ==>
      forall c: Card :: c in Run(s, [Deal(p, hand)] + events).value.unseenCards <==>
        c !in hand && c !in Witnessed(p, events)
  {
    var all := [Deal(p, hand)] + events;
    assert all[0] == Deal(p, hand) && all[1..] == events;
    RunUnseenIsUnwitnessed(Reset(p, hand), events);
  }

  // ---------------------------------------------------------------------
  // Card placement stays consistent under a legal event stream
  // ---------------------------------------------------------------------

  /** No card lies twice in the discard pile. */
  predicate Distinct(pile: seq<Card>) {
    forall i, j :: 0 <= i < j < |pile| ==> pile[i] != pile[j]
  }

  /** Every card is in at least one view: my hand, the opponent's known
      hand, the discard pile or the unseen cards. */
  predicate Covered(s: State) {
    forall c: Card :: c in s.myHand || c in s.opKnownHand || c in s.discardPile || c in s.unseenCards
  }

  /** Every card is placed consistently: each card is in exactly one of my
      hand, the opponent's known hand, the discard pile and the unseen
      cards, and the pile holds no card twice. */
  predicate Consistent(s: State) {
    && Covered(s)
    && s.myHand !! s.unseenCards
    && s.myHand !! s.opKnownHand
    && s.opKnownHand !! s.unseenCards
    && Distinct(s.discardPile)
    && (forall i :: 0 <= i < |s.discardPile| ==>
          && s.discardPile[i] !in s.myHand
          && s.discardPile[i] !in s.opKnownHand
          && s.discardPile[i] !in s.unseenCards)
  }

  /** The event could happen in a real game from `s`. The first face-up card
      is in neither known hand. My own draw names either the face-up card or
      a card that is neither on the pile nor in the opponent's known hand.
      The opponent's draw is reported with a card only when it took the
      face-up card. I discard only from my hand, and the opponent discards a
      card neither in my hand nor on the pile. The counter itself checks
      none of this. */
  predicate Legal(s: State, e: Event) {
    match e
    case Deal(_, _) => true
    case FirstFaceUp(c) => c !in s.myHand && c !in s.opKnownHand
    case Draw(p, drawn) =>
      && (IsMe(s, p) && drawn.Some? && !IsFaceUpCard(s, drawn) ==>
            drawn.value !in s.discardPile && drawn.value !in s.opKnownHand)
      && (!IsMe(s, p) && drawn.Some? ==> IsFaceUpCard(s, drawn))
    case Discard(p, c) =>
      if IsMe(s, p) then c in s.myHand else c !in s.myHand && c !in s.discardPile
  }

  /** Every event of the run is legal in the state it is applied to. */
  predicate LegalRun(s: State, events: seq<Event>)
    decreases |events|
  {
    |events| > 0 ==>
      && Legal(s, events[0])
      && (Step(s, events[0]).Ok? ==> LegalRun(Step(s, events[0]).value, events[1..]))
  }

  /** A legal own or opponent draw keeps the card placement consistent. */
  lemma DrawKeepsConsistent(s: State, p: int, drawn: Option<Card>)
    requires IsMe(s, p) ==> drawn.Some?
    requires Consistent(s) && Legal(s, Draw(p, drawn))
    ensures Consistent(ReportDraw(s, p, drawn))
  {
  }

  /** A legal discard keeps the card placement consistent. */
  lemma DiscardKeepsConsistent(s: State, p: int, c: Card)
    requires Consistent(s) && Legal(s, Discard(p, c))
    ensures Consistent(ReportDiscard(s, p, c))
  {
  }

  /** A legal event keeps the card placement consistent. */
  lemma StepKeepsConsistent(s: State, e: Event)
    requires Consistent(s) && Legal(s, e)
    ensures Step(s, e).Ok? ==> Consistent(Step(s, e).value)
  {
    match e
    case Deal(p, hand) =>
      assert Reset(p, hand).discardPile == [];
    case FirstFaceUp(c) =>
    case Draw(p, drawn) =>
      if !(IsMe(s, p) && drawn.None?) {
        DrawKeepsConsistent(s, p, drawn);
      }
    case Discard(p, c) =>
      DiscardKeepsConsistent(s, p, c);
  }

  /** A legal run from a consistent state keeps it consistent throughout. */
  lemma {:induction false} RunKeepsConsistent(s: State, events: seq<Event>)
    requires Consistent(s) && LegalRun(s, events)
    ensures Run(s, events).Ok? ==> Consistent(Run(s, events).value)
    decreases |events|
  {
    if |events| > 0 && Step(s, events[0]).Ok? {
      StepKeepsConsistent(s, events[0]);
      RunKeepsConsistent(Step(s, events[0]).value, events[1..]);
    }
  }

  /** Every state a legal game reaches after a deal is consistent. */
  lemma LegalGameConsistent(s: State, p: int, hand: set<Card>, events: seq<Event>)
    requires LegalRun(Reset(p, hand), events)
    ensures Run(s, [Deal(p, hand)] + events).Ok? ==>
      Consistent(Run(s, [Deal(p, hand)] + events).value)
  {
    var all := [Deal(p, hand)] + events;
    assert all[0] == Deal(p, hand) && all[1..] == events;
    RunKeepsConsistent(Reset(p, hand), events);
  }

  // ---------------------------------------------------------------------
  // The face-up card decides where a draw came from
  // ---------------------------------------------------------------------

  /** A discarded card taken straight back by the next draw leaves the
      discard pile and the draw pile as they were before the discard, and
      adds no reject. */
  lemma DiscardThenTakeBack(s: State, p: int, q: int, c: Card)
    ensures
      var t := ReportDiscard(s, p, c);
      var u := ReportDraw(t, q, Some(c));
      && u.discardPile == s.discardPile
      && u.drawPileSize == s.drawPileSize
      && u.myRejects == t.myRejects && u.opRejects == t.opRejects
  {
  }

  /** A draw of any card other than the face-up one counts as a blind draw:
      the pile is untouched, the draw pile shrinks by one and the face-up
      card becomes the drawer's reject. */
  lemma PassingOverFaceUpCard(s: State, p: int, c: Card)
    requires |s.discardPile| > 0 && c != Top(s.discardPile)
    ensures ReportDraw(s, p, Some(c)).discardPile == s.discardPile
    ensures ReportDraw(s, p, Some(c)).drawPileSize + 1 == s.drawPileSize
    ensures Top(s.discardPile) in
      (if IsMe(s, p) then ReportDraw(s, p, Some(c)).myRejects else ReportDraw(s, p, Some(c)).opRejects)
  {
  }

  /** Only the emptiness of the discard pile guards the first face-up card:
      once that card has been drawn back off the pile, another "first"
      face-up card is accepted. */
  lemma FirstFaceUpAcceptedAgainOnEmptyPile(p: int, hand: set<Card>, c: Card, c2: Card)
    ensures
      var s := ReportFirstFaceUpCard(Reset(p, hand), c).value;
      var t := ReportDraw(s, p, Some(c));
      && t.discardPile == []
      && ReportFirstFaceUpCard(t, c2).Ok?
      && ReportFirstFaceUpCard(t, c2).value.drawPileSize == 30
  {
  }
}
