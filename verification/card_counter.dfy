/** The card-counting state machine of a Gin Rummy agent: it consumes the
    publicly observable events of one deal (the deal itself, the first
    face-up card, draws and discards) and tracks where every card may be. */
module CardCounter {
  import opened Cards
  import opened Wrappers

  /** The counter's whole state. The discard pile is a stack whose last
      element is its top; the fields double as the read-only accessors. */
  datatype State = State(
    myNumber: int,            // the number `IsMe` recognises
    myHand: set<Card>,        // what the agent holds right now
    myRejects: set<Card>,     // the agent's discards and face-up cards it declined
    opNumber: int,            // the number `reset` assigns to the other player
    opKnownHand: set<Card>,   // the other player's cards whose identity was shown
    opRejects: set<Card>,     // the other player's discards and declined face-up cards
    discardPile: seq<Card>,   // the stack of face-up cards, last element on top
    drawPileSize: int,        // how many face-down cards are left to draw
    unseenCards: set<Card>    // cards not yet located: face down or hidden in a hand
  )

  /** Why an operation refused to run. */
  datatype CounterError =
    | NotFirstFaceUpCard(card: Card)   // the discard pile was already started
    | OwnDrawWithoutCard               // this agent reported a draw with no card

  /** Java's `%` for a positive divisor: the remainder takes the sign of
      the dividend (truncating division), unlike Dafny's Euclidean `%`. */
  function JavaRem(a: int, b: int): (r: int)
    requires b > 0
    ensures a >= 0 ==> 0 <= r < b
    ensures a < 0 ==> -b < r <= 0
    ensures a >= 0 ==> r == a % b
    ensures a < 0 ==> r == -((-a) % b)
  {
    if a >= 0 then a % b else -((-a) % b)
  }

  /** The opponent's number as `reset` computes it from this agent's. */
  function OpponentOf(p: int): (r: int)
    ensures -1 <= r <= 1
    ensures r != p
    ensures p == 0 ==> r == 1
    ensures p == 1 || p == -1 ==> r == 0
  {
    JavaRem(p + 1, 2)
  }

  /** The top of a non-empty discard pile. */
  function Top(pile: seq<Card>): (c: Card)
    requires |pile| > 0
    ensures c in pile
  {
    pile[|pile| - 1]
  }

  /** Whether `p` is this agent; every other number counts as the opponent. */
  function IsMe(s: State, p: int): (b: bool)
    ensures b <==> p == s.myNumber
    ensures p == s.opNumber && s.opNumber != s.myNumber ==> !b
  {
    s.myNumber == p
  }

  /** Whether the drawn card is present and is the face-up top of the pile. */
  function IsFaceUpCard(s: State, card: Option<Card>): (b: bool)
    ensures b ==> card.Some? && card.value in s.discardPile
    ensures b <==> |s.discardPile| > 0 && card == Some(Top(s.discardPile))
    ensures card.None? || |s.discardPile| == 0 ==> !b
  {
    |s.discardPile| > 0 && card.Some? && card.value == Top(s.discardPile)
  }

  /** The cards the agent cannot locate right after the deal: the whole
      deck except its own hand. */
  function UnseenAfterDeal(hand: set<Card>): (r: set<Card>)
    ensures forall c: Card :: c in r <==> c !in hand
    ensures r !! hand
    ensures |r| == NUM_CARDS - |hand|
  {
    UniverseFacts();
    assert Universe == (Universe - hand) + hand;
    Universe - hand
  }

  /** The deck scan of `reset`: collects every card of the table that is
      not in the hand, one index at a time. */
  method ScanUnseen(hand: set<Card>) returns (unseen: set<Card>)
    ensures forall c: Card :: c in unseen <==> c !in hand
    ensures unseen == UnseenAfterDeal(hand)
  {
    unseen := {};
    var i := 0;
    while i < NUM_CARDS
      invariant 0 <= i <= NUM_CARDS
      invariant forall c: Card :: c in unseen <==> c < i && c !in hand
    {
      var c: Card := i;
      if c !in hand {
        unseen := unseen + {c};
      }
      i := i + 1;
    }
  }

  /** Start a new deal: this agent is player `p` holding `hand`. Nothing of
      any earlier state survives. */
  function Reset(p: int, hand: set<Card>): (r: State)
    ensures r.myNumber == p && r.opNumber != p && r.opNumber == OpponentOf(p)
    ensures r.myHand == hand
    ensures r.myRejects == {} && r.opKnownHand == {} && r.opRejects == {}
    ensures r.discardPile == []
    ensures r.drawPileSize == 32
    ensures forall c: Card :: c in r.unseenCards <==> c !in hand
    ensures r.myHand !! r.unseenCards
    ensures |r.unseenCards| == NUM_CARDS - |hand|
  {
    State(
      myNumber := p,
      myHand := hand,
      myRejects := {},
      opNumber := OpponentOf(p),
      opKnownHand := {},
      opRejects := {},
      discardPile := [],
      drawPileSize := NUM_CARDS - 2 * HAND_SIZE,
      unseenCards := UnseenAfterDeal(hand))
  }

  /** Turn up the first card of the discard pile from the draw pile. Fails,
      leaving the counter as it was, when the discard pile is not empty. */
  function ReportFirstFaceUpCard(s: State, card: Card): (r: Result<State, CounterError>)
    ensures r.Err? <==> |s.discardPile| > 0
    ensures r.Err? ==> r.error == NotFirstFaceUpCard(card)
    ensures r.Ok? ==> r.value.discardPile == [card] && Top(r.value.discardPile) == card
    ensures r.Ok? ==> r.value.drawPileSize + 1 == s.drawPileSize
    ensures r.Ok? ==> card !in r.value.unseenCards
    ensures r.Ok? ==> forall c :: c in r.value.unseenCards <==> c in s.unseenCards && c != card
    ensures r.Ok? ==> r.value.myHand == s.myHand && r.value.opKnownHand == s.opKnownHand
    ensures r.Ok? ==> r.value.myRejects == s.myRejects && r.value.opRejects == s.opRejects
    ensures r.Ok? ==> r.value.myNumber == s.myNumber && r.value.opNumber == s.opNumber
  {
    if |s.discardPile| == 0 then
      Ok(s.(drawPileSize := s.drawPileSize - 1,
            discardPile := s.discardPile + [card],
            unseenCards := s.unseenCards - {card}))
    else
      Err(NotFirstFaceUpCard(card))
  }

  /** The pile and reject bookkeeping of a draw: a draw of the face-up card
      pops the discard pile; any other draw comes from the draw pile and,
      when a face-up card was on offer, records it as rejected by the drawer.
      A seen card leaves the unseen cards either way. */
  function UpdatePilesAndRejects(s: State, p: int, drawn: Option<Card>): (r: State)
    ensures drawn.Some? ==> r.unseenCards == s.unseenCards - {drawn.value}
    ensures drawn.None? ==> r.unseenCards == s.unseenCards
    ensures IsFaceUpCard(s, drawn) ==>
      && s.discardPile == r.discardPile + [drawn.value]
      && r.drawPileSize == s.drawPileSize
      && r.myRejects == s.myRejects && r.opRejects == s.opRejects
    ensures !IsFaceUpCard(s, drawn) ==>
      && r.discardPile == s.discardPile
      && r.drawPileSize + 1 == s.drawPileSize
    ensures !IsFaceUpCard(s, drawn) && |s.discardPile| > 0 && IsMe(s, p) ==>
      r.myRejects == s.myRejects + {Top(s.discardPile)} && r.opRejects == s.opRejects
    ensures !IsFaceUpCard(s, drawn) && |s.discardPile| > 0 && !IsMe(s, p) ==>
      r.opRejects == s.opRejects + {Top(s.discardPile)} && r.myRejects == s.myRejects
    ensures |s.discardPile| == 0 ==> r.myRejects == s.myRejects && r.opRejects == s.opRejects
    ensures r.myHand == s.myHand && r.opKnownHand == s.opKnownHand
    ensures r.myNumber == s.myNumber && r.opNumber == s.opNumber
  {
    var s1 := if drawn.Some? then s.(unseenCards := s.unseenCards - {drawn.value}) else s;
    if IsFaceUpCard(s, drawn) then
      s1.(discardPile := s.discardPile[..|s.discardPile| - 1])
    else
      var s2 := s1.(drawPileSize := s1.drawPileSize - 1);
      if |s.discardPile| == 0 then s2
      else if IsMe(s, p) then s2.(myRejects := s2.myRejects + {Top(s.discardPile)})
      else s2.(opRejects := s2.opRejects + {Top(s.discardPile)})
  }

  /** Player `p` drew `drawn`: the card if the agent saw it, `None` for an
      opponent's blind draw. This agent always sees its own card. */
  function ReportDraw(s: State, p: int, drawn: Option<Card>): (r: State)
    requires IsMe(s, p) ==> drawn.Some?
    ensures drawn.Some? ==> r.unseenCards == s.unseenCards - {drawn.value}
    ensures drawn.None? ==> r.unseenCards == s.unseenCards
    ensures IsFaceUpCard(s, drawn) ==>
      && s.discardPile == r.discardPile + [drawn.value]
      && r.drawPileSize == s.drawPileSize
      && r.myRejects == s.myRejects && r.opRejects == s.opRejects
    ensures !IsFaceUpCard(s, drawn) ==>
      && r.discardPile == s.discardPile
      && r.drawPileSize + 1 == s.drawPileSize
    ensures !IsFaceUpCard(s, drawn) && |s.discardPile| > 0 && IsMe(s, p) ==>
      r.myRejects == s.myRejects + {Top(s.discardPile)} && r.opRejects == s.opRejects
    ensures !IsFaceUpCard(s, drawn) && |s.discardPile| > 0 && !IsMe(s, p) ==>
      r.opRejects == s.opRejects + {Top(s.discardPile)} && r.myRejects == s.myRejects
    ensures |s.discardPile| == 0 ==> r.myRejects == s.myRejects && r.opRejects == s.opRejects
    ensures IsMe(s, p) ==> r.myHand == s.myHand + {drawn.value} && r.opKnownHand == s.opKnownHand
    ensures !IsMe(s, p) ==> r.myHand == s.myHand
    ensures !IsMe(s, p) && drawn.Some? ==> r.opKnownHand == s.opKnownHand + {drawn.value}
    ensures !IsMe(s, p) && drawn.None? ==> r.opKnownHand == s.opKnownHand
    ensures r.myNumber == s.myNumber && r.opNumber == s.opNumber
  {
    var s1 := UpdatePilesAndRejects(s, p, drawn);
    if IsMe(s, p) then s1.(myHand := s1.myHand + {drawn.value})
    else if drawn.Some? then s1.(opKnownHand := s1.opKnownHand + {drawn.value})
    else s1
  }

  /** Player `p` discarded `card` face up onto the discard pile. */
  function ReportDiscard(s: State, p: int, card: Card): (r: State)
    ensures |r.discardPile| == |s.discardPile| + 1
    ensures r.discardPile[..|s.discardPile|] == s.discardPile && Top(r.discardPile) == card
    ensures r.drawPileSize == s.drawPileSize
    ensures IsMe(s, p) ==>
      && r.myHand == s.myHand - {card} && r.myRejects == s.myRejects + {card}
      && r.opKnownHand == s.opKnownHand && r.opRejects == s.opRejects
      && r.unseenCards == s.unseenCards
    ensures !IsMe(s, p) ==>
      && r.opRejects == s.opRejects + {card} && r.opKnownHand == s.opKnownHand - {card}
      && r.unseenCards == s.unseenCards - {card}
      && r.myHand == s.myHand && r.myRejects == s.myRejects
    ensures r.myNumber == s.myNumber && r.opNumber == s.opNumber
  {
    var s1 := s.(discardPile := s.discardPile + [card]);
    if IsMe(s, p) then
      s1.(myRejects := s1.myRejects + {card}, myHand := s1.myHand - {card})
    else
      s1.(opRejects := s1.opRejects + {card},
          opKnownHand := s1.opKnownHand - {card},
          unseenCards := s1.unseenCards - {card})
  }

  /** One reported game event. */
  datatype Event =
    | Deal(player: int, hand: set<Card>)
    | FirstFaceUp(card: Card)
    | Draw(player: int, drawn: Option<Card>)
    | Discard(player: int, card: Card)

  /** Feed one event to the counter. An own draw without a card is refused
      here rather than letting an absent card into the hand. */
  function Step(s: State, e: Event): Result<State, CounterError>
  {
    match e
    case Deal(p, hand) => Ok(Reset(p, hand))
    case FirstFaceUp(c) => ReportFirstFaceUpCard(s, c)
    case Draw(p, drawn) =>
      if IsMe(s, p) && drawn.None? then Err(OwnDrawWithoutCard)
      else Ok(ReportDraw(s, p, drawn))
    case Discard(p, c) => Ok(ReportDiscard(s, p, c))
  }

  /** Feed a sequence of events in order, stopping at the first refusal. */
  function Run(s: State, events: seq<Event>): Result<State, CounterError>
    decreases |events|
  {
    if |events| == 0 then Ok(s)
    else
      match Step(s, events[0])
      case Err(e) => Err(e)
      case Ok(t) => Run(t, events[1..])
  }
}
