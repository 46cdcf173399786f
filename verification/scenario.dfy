/** The end-to-end game of the counter's unit test, replayed on concrete
    cards: this agent is player `p`, holds cards 0-9, the opponent holds
    cards 10-19 and card 20 is turned up first. Each lemma checks one event
    against the state the test expects after it. */
module CounterScenario {
  import opened Cards
  import opened Wrappers
  import opened CardCounter

  const MyDeal: set<Card> := {0, 1, 2, 3, 4, 5, 6, 7, 8, 9}

  /** The state expected after each event, named after the event. */
  function Dealt(p: int): State {
    State(p, MyDeal, {}, OpponentOf(p), {}, {}, [], 32, Universe - MyDeal)
  }

  function FaceUpTurned(p: int): State {
    State(p, MyDeal, {}, OpponentOf(p), {}, {}, [20], 31, Universe - MyDeal - {20})
  }

  function IDrewBlind(p: int): State {
    State(p, MyDeal + {21}, {20}, OpponentOf(p), {}, {}, [20], 30,
          Universe - MyDeal - {20, 21})
  }

  function IDiscarded(p: int): State {
    State(p, MyDeal + {21} - {0}, {20, 0}, OpponentOf(p), {}, {}, [20, 0], 30,
          Universe - MyDeal - {20, 21})
  }

  function OpponentDrewBlind(p: int): State {
    State(p, MyDeal + {21} - {0}, {20, 0}, OpponentOf(p), {}, {0}, [20, 0], 29,
          Universe - MyDeal - {20, 21})
  }

  function OpponentDiscarded(p: int): State {
    State(p, MyDeal + {21} - {0}, {20, 0}, OpponentOf(p), {}, {0, 15}, [20, 0, 15], 29,
          Universe - MyDeal - {20, 21, 15})
  }

  function ITookDiscard(p: int): State {
    State(p, MyDeal + {21, 15} - {0}, {20, 0}, OpponentOf(p), {}, {0, 15}, [20, 0], 29,
          Universe - MyDeal - {20, 21, 15})
  }

  function IDiscardedAgain(p: int): State {
    State(p, MyDeal + {21, 15} - {0, 1}, {20, 0, 1}, OpponentOf(p), {}, {0, 15}, [20, 0, 1], 29,
          Universe - MyDeal - {20, 21, 15})
  }

  function OpponentTookDiscard(p: int): State {
    State(p, MyDeal + {21, 15} - {0, 1}, {20, 0, 1}, OpponentOf(p), {1}, {0, 15}, [20, 0], 29,
          Universe - MyDeal - {20, 21, 15})
  }

  function OpponentDiscardedAgain(p: int): State {
    State(p, MyDeal + {21, 15} - {0, 1}, {20, 0, 1}, OpponentOf(p), {1}, {0, 15, 16}, [20, 0, 16], 29,
          Universe - MyDeal - {20, 21, 15, 16})
  }

  /** The deal: 32 cards left to draw and everything but my hand unseen. */
  lemma ScenarioDeal(s: State, p: int)
    ensures Step(s, Deal(p, MyDeal)) == Ok(Dealt(p))
    ensures |Dealt(p).unseenCards| == 42
  {
  }

  /** Card 20 is turned up; my hand is untouched. */
  lemma ScenarioFaceUp(p: int)
    ensures ReportFirstFaceUpCard(Dealt(p), 20) == Ok(FaceUpTurned(p))
    ensures ReportFirstFaceUpCard(FaceUpTurned(p), 20).Err?
  {
  }

  /** I draw card 21 blind, passing over card 20; then I discard card 0. */
  lemma ScenarioMyBlindDrawAndDiscard(p: int)
    ensures ReportDraw(FaceUpTurned(p), p, Some(21)) == IDrewBlind(p)
    ensures ReportDiscard(IDrewBlind(p), p, 0) == IDiscarded(p)
  {
  }

  /** The opponent draws unseen, passing over card 0, then discards 15. */
  lemma ScenarioOpponentBlindDrawAndDiscard(p: int)
    ensures ReportDraw(IDiscarded(p), OpponentOf(p), None) == OpponentDrewBlind(p)
    ensures ReportDiscard(OpponentDrewBlind(p), OpponentOf(p), 15) == OpponentDiscarded(p)
  {
  }

  /** I take card 15 from the discard pile, then discard card 1. */
  lemma ScenarioMyPileDrawAndDiscard(p: int)
    ensures ReportDraw(OpponentDiscarded(p), p, Some(15)) == ITookDiscard(p)
    ensures ReportDiscard(ITookDiscard(p), p, 1) == IDiscardedAgain(p)
  {
  }

  /** The opponent takes card 1 from the pile, then discards card 16. */
  lemma ScenarioOpponentPileDrawAndDiscard(p: int)
    ensures ReportDraw(IDiscardedAgain(p), OpponentOf(p), Some(1)) == OpponentTookDiscard(p)
    ensures ReportDiscard(OpponentTookDiscard(p), OpponentOf(p), 16) == OpponentDiscardedAgain(p)
  {
  }

  /** The events of the unit test after the deal, for agent `p`. */
  function GameAfterDeal(p: int): seq<Event> {
    [FirstFaceUp(20), Draw(p, Some(21)), Discard(p, 0),
     Draw(OpponentOf(p), None), Discard(OpponentOf(p), 15),
     Draw(p, Some(15)), Discard(p, 1),
     Draw(OpponentOf(p), Some(1)), Discard(OpponentOf(p), 16)]
  }

  /** The opponent's half of the game, from the point I took card 15. */
  lemma ScenarioSecondHalf(p: int)
    ensures Run(ITookDiscard(p), GameAfterDeal(p)[6..]) == Ok(OpponentDiscardedAgain(p))
  {
    var g := GameAfterDeal(p);
    var op := OpponentOf(p);
    ScenarioMyPileDrawAndDiscard(p);
    ScenarioOpponentPileDrawAndDiscard(p);
    RunPrepend(OpponentTookDiscard(p), Discard(op, 16), []);
    RunPrepend(IDiscardedAgain(p), Draw(op, Some(1)), [Discard(op, 16)]);
    assert g[6..] == [Discard(p, 1)] + [Draw(op, Some(1)), Discard(op, 16)];
    RunPrepend(ITookDiscard(p), Discard(p, 1), [Draw(op, Some(1)), Discard(op, 16)]);
  }

  /** The game from the opponent's blind draw up to my taking card 15. */
  lemma ScenarioMiddle(p: int)
    ensures Run(IDiscarded(p), GameAfterDeal(p)[3..]) == Run(ITookDiscard(p), GameAfterDeal(p)[6..])
  {
    var g := GameAfterDeal(p);
    ScenarioOpponentBlindDrawAndDiscard(p);
    ScenarioMyPileDrawAndDiscard(p);
    assert g[5..] == [g[5]] + g[6..];
    RunPrepend(OpponentDiscarded(p), g[5], g[6..]);
    assert g[4..] == [g[4]] + g[5..];
    RunPrepend(OpponentDrewBlind(p), g[4], g[5..]);
    assert g[3..] == [g[3]] + g[4..];
    RunPrepend(IDiscarded(p), g[3], g[4..]);
  }

  /** The game from the first face-up card up to my taking card 15. */
  lemma ScenarioFirstHalf(p: int)
    ensures Run(Dealt(p), GameAfterDeal(p)) == Run(ITookDiscard(p), GameAfterDeal(p)[6..])
  {
    var g := GameAfterDeal(p);
    ScenarioFaceUp(p);
    ScenarioMyBlindDrawAndDiscard(p);
    ScenarioMiddle(p);
    assert g[2..] == [g[2]] + g[3..];
    RunPrepend(IDrewBlind(p), g[2], g[3..]);
    assert g[1..] == [g[1]] + g[2..];
    RunPrepend(FaceUpTurned(p), g[1], g[2..]);
    assert g == [g[0]] + g[1..];
    RunPrepend(Dealt(p), g[0], g[1..]);
  }

  /** The whole game as one event stream ends in the state the test
      expects, and a fresh deal afterwards leaves nothing of it behind. */
  lemma ScenarioRun(s: State, p: int, q: int)
    ensures Run(s, [Deal(p, MyDeal)] + GameAfterDeal(p)) == Ok(OpponentDiscardedAgain(p))
    ensures Step(OpponentDiscardedAgain(p), Deal(q, MyDeal)) == Ok(Dealt(q))
  {
    ScenarioDeal(s, p);
    RunPrepend(s, Deal(p, MyDeal), GameAfterDeal(p));
    ScenarioFirstHalf(p);
    ScenarioSecondHalf(p);
    ScenarioDeal(OpponentDiscardedAgain(p), q);
  }

  /** Running an event stream is one step followed by the rest. */
  lemma RunPrepend(s: State, e: Event, rest: seq<Event>)
    ensures Step(s, e).Ok? ==> Run(s, [e] + rest) == Run(Step(s, e).value, rest)
    ensures Step(s, e).Err? ==> Run(s, [e] + rest) == Step(s, e)
  {
    assert ([e] + rest)[0] == e && ([e] + rest)[1..] == rest;
  }
}
