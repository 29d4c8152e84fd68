/**
 * Sprint Blackjack: one session of the blackjack variant in which the
 * stakes are "stakeholder confidence". Phases run
 * betting -> playing -> retrospective | gameOver | gameWon; a retrospective
 * leads back to betting and the two terminal phases to a restart.
 */
module SprintBlackjack {
  import opened Cards
  import opened Options

  datatype Phase = Betting | Playing | Retrospective | GameOver | GameWon

  datatype GameStats = GameStats(bestStreak: int, currentStreak: int, highestConfidence: int, totalSprints: int)

  const INITIAL_CONFIDENCE: int := 100
  const WIN_CONFIDENCE: int := 1000
  /** A deck with fewer cards than this is replaced before a draw. */
  const REFILL_BELOW: int := 15
  const DEALER_STANDS_AT: int := 17

  const InitialStats: GameStats := GameStats(0, 0, INITIAL_CONFIDENCE, 0)

  /** The swap indices one shuffle of a fresh 52-card deck consumes. */
  type DeckPlan = p: seq<int> | ValidPlan(52, p) witness seq(52, i => 0)

  /** Every card is one of the 52 cards of the fresh deck. */
  predicate AllStandard(cards: seq<Card>) {
    forall c :: c in cards ==> c in FullDeck()
  }

  function Max(a: int, b: int): int {
    if a < b then b else a
  }

  // ---------------------------------------------------------------------------
  // Drawing and dealing

  /**
   * The card drawn and the deck left: a deck below 15 cards is first
   * replaced by a freshly shuffled full deck. A draw from standard cards
   * yields a standard card and leaves standard cards.
   */
  function DrawFrom(deck: seq<Card>, plan: DeckPlan): (r: (Card, seq<Card>))
    ensures |deck| >= REFILL_BELOW ==> r.0 == deck[0] && r.1 == deck[1..]
    ensures |deck| < REFILL_BELOW ==>
              && r.0 == Shuffled(FullDeck(), plan)[0] && r.1 == Shuffled(FullDeck(), plan)[1..]
              && |r.1| == 51 && multiset([r.0] + r.1) == multiset(FullDeck())
    ensures AllStandard(deck) ==> r.0 in FullDeck() && AllStandard(r.1)
  {
    if |deck| < REFILL_BELOW then
      var s := Shuffled(FullDeck(), plan);
      ShuffledIsPermutation(FullDeck(), plan);
      PermutationOfFullDeckIsStandard(s);
      assert s[0] in s;
      assert s == [s[0]] + s[1..];
      (s[0], s[1..])
    else
      assert deck[0] in deck;
      (deck[0], deck[1..])
  }

  lemma PermutationOfFullDeckIsStandard(s: seq<Card>)
    requires multiset(s) == multiset(FullDeck())
    ensures AllStandard(s)
  {
    forall c | c in s
      ensures c in FullDeck()
    {
      assert c in multiset(s);
    }
  }

  datatype Dealt = Dealt(player: seq<Card>, dealer: seq<Card>, rest: seq<Card>)

  /** The opening deal: player, dealer, player, dealer, each a draw from the deck the previous draw left. */
  function DealFrom(deck: seq<Card>, plan: DeckPlan): Dealt {
    var (p1, deck1) := DrawFrom(deck, plan);
    var (d1, deck2) := DrawFrom(deck1, plan);
    var (p2, deck3) := DrawFrom(deck2, plan);
    var (d2, deck4) := DrawFrom(deck3, plan);
    Dealt([p1, p2], [d1, d2], deck4)
  }

  /** With 18 or more cards left no refill happens and the deal hands out the top four cards alternately. */
  lemma DealTakesTopFour(deck: seq<Card>, plan: DeckPlan)
    requires |deck| >= REFILL_BELOW + 3
    ensures DealFrom(deck, plan) == Dealt([deck[0], deck[2]], [deck[1], deck[3]], deck[4..])
  {
    assert deck[1..][1..] == deck[2..];
    assert deck[2..][1..] == deck[3..];
    assert deck[3..][1..] == deck[4..];
  }

  lemma TwoCardTotals(a: Card, b: Card)
    ensures HardTotal([a, b]) == CardPoints(a) + CardPoints(b)
    ensures AceCount([a, b]) == (if a.value == Ace then 1 else 0) + (if b.value == Ace then 1 else 0)
  {
    HardTotalAppend([a], b);
    HardTotalAppend([], a);
    assert [a] + [b] == [a, b];
    assert [] + [a] == [a];
  }

  /** Two standard cards are worth at most 21, so an opening hand never busts. */
  lemma OpeningHandWithin21(a: Card, b: Card)
    requires a in FullDeck() && b in FullDeck()
    ensures HandValue([a, b]) <= 21
  {
    StandardCardValues(a);
    StandardCardValues(b);
    TwoCardTotals(a, b);
  }

  // ---------------------------------------------------------------------------
  // The deal as written: one deck snapshot for all four draws

  /**
   * The opening deal as the source performs it: the four drawCard() calls of
   * one placeBet all read the deck of the same render, so each draw starts
   * from the same deck, and the deck kept is the one the last draw leaves.
   */
  function DealFromSnapshot(deck: seq<Card>, plans: seq<DeckPlan>): Dealt
    requires |plans| == 4
  {
    var (p1, deck1) := DrawFrom(deck, plans[0]);
    var (d1, deck2) := DrawFrom(deck, plans[1]);
    var (p2, deck3) := DrawFrom(deck, plans[2]);
    var (d2, deck4) := DrawFrom(deck, plans[3]);
    Dealt([p1, p2], [d1, d2], deck4)
  }

  /** With 15 or more cards in the deck, the as-written deal gives all four seats the top card and burns only one card. */
  lemma SnapshotDealRepeatsTopCard(deck: seq<Card>, plans: seq<DeckPlan>)
    requires |plans| == 4 && |deck| >= REFILL_BELOW
    ensures DealFromSnapshot(deck, plans) == Dealt([deck[0], deck[0]], [deck[0], deck[0]], deck[1..])
  {
  }

  /** Hence the as-written deal never deals the player a natural 21 from a deck of 15 or more cards. */
  lemma SnapshotDealNeverNatural(deck: seq<Card>, plans: seq<DeckPlan>)
    requires |plans| == 4 && |deck| >= REFILL_BELOW && AllStandard(deck)
    ensures HandValue(DealFromSnapshot(deck, plans).player) != 21
  {
    var c := deck[0];
    assert c in deck;
    StandardCardValues(c);
    TwoCardTotals(c, c);
    assert DealFromSnapshot(deck, plans).player == [c, c];
  }

  /** The sequential deal does deal naturals: an ace and a king on top, two cards apart, give the player 21. */
  lemma SequentialDealCanBeNatural(plan: DeckPlan)
    ensures var deck := [MakeCard(Spades, Ace), MakeCard(Spades, Pip(2)), MakeCard(Spades, King), MakeCard(Spades, Pip(3))]
                        + FullDeck()[..14];
            HandValue(DealFrom(deck, plan).player) == 21
  {
    var deck := [MakeCard(Spades, Ace), MakeCard(Spades, Pip(2)), MakeCard(Spades, King), MakeCard(Spades, Pip(3))]
                + FullDeck()[..14];
    DealTakesTopFour(deck, plan);
    TwoCardTotals(deck[0], deck[2]);
  }

  // ---------------------------------------------------------------------------
  // Dealer play

  /** The dealer's hand and the deck once the dealer has drawn while its value is below 17. */
  function DealerPlay(hand: seq<Card>, deck: seq<Card>, plan: DeckPlan): (seq<Card>, seq<Card>)
    requires AllStandard(hand) && AllStandard(deck)
    decreases DEALER_STANDS_AT - HardTotal(hand)
  {
    if HandValue(hand) >= DEALER_STANDS_AT then (hand, deck)
    else
      var (c, rest) := DrawFrom(deck, plan);
      StandardCardValues(c);
      HardTotalAppend(hand, c);
      HandValueIsBestTotal(hand);
      DealerPlay(hand + [c], rest, plan)
  }

  /**
   * The dealer ends with a value of at least 17, keeps the cards it had, and
   * drew each further card only while the hand held before it was below 17.
   */
  lemma {:induction false} DealerDrawsBelowSeventeen(hand: seq<Card>, deck: seq<Card>, plan: DeckPlan)
    requires AllStandard(hand) && AllStandard(deck)
    ensures var (h, d) := DealerPlay(hand, deck, plan);
            && |h| >= |hand| && h[..|hand|] == hand
            && HandValue(h) >= DEALER_STANDS_AT
            && (forall k :: |hand| <= k < |h| ==> HandValue(h[..k]) < DEALER_STANDS_AT)
            && AllStandard(h) && AllStandard(d)
    decreases DEALER_STANDS_AT - HardTotal(hand)
  {
    if HandValue(hand) < DEALER_STANDS_AT {
      var (c, rest) := DrawFrom(deck, plan);
      StandardCardValues(c);
      HardTotalAppend(hand, c);
      HandValueIsBestTotal(hand);
      var next := hand + [c];
      DealerDrawsBelowSeventeen(next, rest, plan);
      var (h, d) := DealerPlay(next, rest, plan);
      assert DealerPlay(hand, deck, plan) == (h, d);
      assert h[..|hand|] == next[..|hand|] == hand by {
        assert h[..|next|] == next;
      }
      forall k | |hand| <= k < |h|
        ensures HandValue(h[..k]) < DEALER_STANDS_AT
      {
        if k == |hand| {
          assert h[..k] == hand;
        }
      }
    }
  }

  // ---------------------------------------------------------------------------
  // Settlement

  /** The phase after a round settled by standing: 1000 or more wins the game, 0 or less loses it. */
  function PhaseAfterRound(newConfidence: int): (p: Phase)
    ensures p == GameWon <==> newConfidence >= WIN_CONFIDENCE
    ensures p == GameOver <==> newConfidence <= 0
    ensures p == Retrospective <==> 0 < newConfidence < WIN_CONFIDENCE
  {
    if newConfidence >= WIN_CONFIDENCE then GameWon
    else if newConfidence <= 0 then GameOver
    else Retrospective
  }

  /** The phase after a natural 21: it is checked against 1000 only, so it never ends the game lost. */
  function PhaseAfterNatural(newConfidence: int): (p: Phase)
    ensures p == GameWon <==> newConfidence >= WIN_CONFIDENCE
    ensures p == Retrospective <==> newConfidence < WIN_CONFIDENCE
  {
    if newConfidence >= WIN_CONFIDENCE then GameWon else Retrospective
  }

  /** The phase after a bust: it is checked against 0 only, so a bust never wins the game. */
  function PhaseAfterBust(newConfidence: int): (p: Phase)
    ensures p == GameOver <==> newConfidence <= 0
    ensures p == Retrospective <==> newConfidence > 0
  {
    if newConfidence <= 0 then GameOver else Retrospective
  }

  datatype Settlement = Settlement(confidence: int, won: bool)

  /** Settles a round the player stood on, from the final values of the two hands. */
  function Resolve(confidence: int, bet: int, playerValue: int, dealerValue: int): (s: Settlement)
    ensures s.won <==> dealerValue > 21 || playerValue > dealerValue
    ensures s.won ==> s.confidence == confidence + bet
    ensures !s.won && playerValue < dealerValue ==> s.confidence == confidence - bet
    ensures !s.won && playerValue == dealerValue ==> s.confidence == confidence
  {
    if dealerValue > 21 then Settlement(confidence + bet, true)
    else if playerValue > dealerValue then Settlement(confidence + bet, true)
    else if playerValue < dealerValue then Settlement(confidence - bet, false)
    else Settlement(confidence, false)
  }

  /** Between two standing hands within 21, what one side gains the other would lose: swapping them negates the change. */
  lemma ResolveIsAntisymmetric(confidence: int, bet: int, a: int, b: int)
    requires a <= 21 && b <= 21
    ensures Resolve(confidence, bet, a, b).confidence - confidence == confidence - Resolve(confidence, bet, b, a).confidence
  {
  }

  // ---------------------------------------------------------------------------
  // Stats bookkeeping

  predicate StreaksConsistent(s: GameStats) {
    0 <= s.currentStreak <= s.bestStreak
  }

  /** Stats after a settled round (a natural counts as won). */
  function RecordRound(s: GameStats, won: bool, newConfidence: int): (r: GameStats)
    ensures r.totalSprints == s.totalSprints + 1
    ensures won ==> r.currentStreak == s.currentStreak + 1 && r.bestStreak >= r.currentStreak
    ensures !won ==> r.currentStreak == 0 && r.bestStreak == s.bestStreak
    ensures r.bestStreak >= s.bestStreak
    ensures r.highestConfidence >= s.highestConfidence && r.highestConfidence >= newConfidence
    ensures r.highestConfidence == s.highestConfidence || r.highestConfidence == newConfidence
    ensures StreaksConsistent(s) ==> StreaksConsistent(r)
  {
    GameStats(
      if won then Max(s.bestStreak, s.currentStreak + 1) else s.bestStreak,
      if won then s.currentStreak + 1 else 0,
      Max(s.highestConfidence, newConfidence),
      s.totalSprints + 1)
  }

  /** Stats after a bust: the streak ends, the round is counted, the peak is left alone. */
  function RecordBust(s: GameStats): (r: GameStats)
    ensures r.totalSprints == s.totalSprints + 1
    ensures r.currentStreak == 0
    ensures r.bestStreak == s.bestStreak && r.highestConfidence == s.highestConfidence
    ensures StreaksConsistent(s) ==> StreaksConsistent(r)
  {
    s.(currentStreak := 0, totalSprints := s.totalSprints + 1)
  }

  /** Stats after a restart: only the streak is reset. */
  function RecordRestart(s: GameStats): (r: GameStats)
    ensures r.currentStreak == 0
    ensures r.bestStreak == s.bestStreak && r.highestConfidence == s.highestConfidence
    ensures r.totalSprints == s.totalSprints
    ensures StreaksConsistent(s) ==> StreaksConsistent(r)
  {
    s.(currentStreak := 0)
  }

  // ---------------------------------------------------------------------------
  // The table: the session's state as a value, and each action as a function on it

  /** Every field of the session the game logic reads or writes. */
  datatype Table = Table(
    phase: Phase,
    confidence: int,
    currentBet: int,
    playerHand: seq<Card>,
    dealerHand: seq<Card>,
    deck: seq<Card>,
    hasDoubledDown: bool,
    stats: GameStats)

  /** All cards on the table and in the deck come from the standard deck. */
  predicate Standard(t: Table) {
    AllStandard(t.deck) && AllStandard(t.playerHand) && AllStandard(t.dealerHand)
  }

  /** What holds between actions: standard cards, and a hand still in play is within 21. */
  predicate Consistent(t: Table) {
    Standard(t) && (t.phase == Playing ==> HandValue(t.playerHand) <= 21)
  }

  /** The table a session opens with: a shuffled fresh deck, 100 confidence, and the stored stats if any. */
  function InitialTable(plan: DeckPlan, saved: Option<GameStats>): (t: Table)
    ensures Consistent(t)
    ensures multiset(t.deck) == multiset(FullDeck()) && t.deck == Shuffled(FullDeck(), plan)
    ensures t.phase == Betting && t.confidence == INITIAL_CONFIDENCE && t.currentBet == 0
    ensures t.playerHand == [] && t.dealerHand == [] && !t.hasDoubledDown
    ensures saved.None? ==> t.stats == InitialStats
    ensures saved.Some? ==> t.stats == saved.value
  {
    ShuffledIsPermutation(FullDeck(), plan);
    PermutationOfFullDeckIsStandard(Shuffled(FullDeck(), plan));
    Table(Betting, INITIAL_CONFIDENCE, 0, [], [], Shuffled(FullDeck(), plan), false, saved.GetOr(InitialStats))
  }

  /** A natural 21: the bet is paid twice over and the round is settled, never lost. */
  function Natural(t: Table): (r: Table)
    requires Standard(t)
    ensures Consistent(r)
    ensures r.confidence == t.confidence + 2 * t.currentBet
    ensures r.phase == PhaseAfterNatural(r.confidence) && (r.phase == GameWon || r.phase == Retrospective)
    ensures r.stats == RecordRound(t.stats, true, r.confidence)
    ensures r.(confidence := t.confidence, stats := t.stats, phase := t.phase) == t
  {
    var c := t.confidence + t.currentBet * 2;
    t.(confidence := c, stats := RecordRound(t.stats, true, c), phase := PhaseAfterNatural(c))
  }

  /** A bust: the bet is lost and the round is settled, never won. */
  function Bust(t: Table): (r: Table)
    requires Standard(t)
    ensures Consistent(r)
    ensures r.confidence == t.confidence - t.currentBet
    ensures r.phase == PhaseAfterBust(r.confidence) && (r.phase == GameOver || r.phase == Retrospective)
    ensures r.stats == RecordBust(t.stats)
    ensures r.(confidence := t.confidence, stats := t.stats, phase := t.phase) == t
  {
    var c := t.confidence - t.currentBet;
    t.(confidence := c, stats := RecordBust(t.stats), phase := PhaseAfterBust(c))
  }

  /** Settles a stood round against the dealer's final hand. */
  function Settle(t: Table, finalDealerHand: seq<Card>): (r: Table)
    requires Standard(t)
    ensures Consistent(r)
    ensures var s := Resolve(t.confidence, t.currentBet, HandValue(t.playerHand), HandValue(finalDealerHand));
            r.confidence == s.confidence && r.stats == RecordRound(t.stats, s.won, s.confidence)
    ensures r.phase == PhaseAfterRound(r.confidence) && r.phase != Playing && r.phase != Betting
    ensures r.(confidence := t.confidence, stats := t.stats, phase := t.phase) == t
  {
    var s := Resolve(t.confidence, t.currentBet, HandValue(t.playerHand), HandValue(finalDealerHand));
    t.(confidence := s.confidence, stats := RecordRound(t.stats, s.won, s.confidence), phase := PhaseAfterRound(s.confidence))
  }

  /** The dealer's turn: it keeps its cards and draws until its hand is worth 17 or more. */
  function DealerTurn(t: Table, plan: DeckPlan): (r: Table)
    requires Standard(t)
    ensures Standard(r)
    ensures |r.dealerHand| >= |t.dealerHand| && r.dealerHand[..|t.dealerHand|] == t.dealerHand
    ensures HandValue(r.dealerHand) >= DEALER_STANDS_AT
    ensures forall k :: |t.dealerHand| <= k < |r.dealerHand| ==> HandValue(r.dealerHand[..k]) < DEALER_STANDS_AT
    ensures (r.dealerHand, r.deck) == DealerPlay(t.dealerHand, t.deck, plan)
    ensures r.(dealerHand := t.dealerHand, deck := t.deck) == t
  {
    DealerDrawsBelowSeventeen(t.dealerHand, t.deck, plan);
    var (hand, deck) := DealerPlay(t.dealerHand, t.deck, plan);
    t.(dealerHand := hand, deck := deck)
  }

  /** Ship It (stand): the dealer plays out and the round is settled; outside play nothing happens. */
  function StandOutcome(t: Table, plan: DeckPlan): (r: Table)
    requires Consistent(t)
    ensures Consistent(r)
    ensures t.phase != Playing ==> r == t
    ensures t.phase == Playing ==>
              && (r.dealerHand, r.deck) == DealerPlay(t.dealerHand, t.deck, plan)
              && HandValue(r.dealerHand) >= DEALER_STANDS_AT
              && r.phase == PhaseAfterRound(r.confidence) && r.phase != Playing
    ensures t.phase == Playing ==>
              var s := Resolve(t.confidence, t.currentBet, HandValue(t.playerHand), HandValue(r.dealerHand));
              r.confidence == s.confidence && r.stats == RecordRound(t.stats, s.won, s.confidence)
    ensures r.playerHand == t.playerHand && r.currentBet == t.currentBet && r.hasDoubledDown == t.hasDoubledDown
  {
    if t.phase != Playing then t
    else
      var d := DealerTurn(t, plan);
      Settle(d, d.dealerHand)
  }

  /** Iterate (hit): one more card; over 21 busts, and after a double down the player stands at once. */
  function HitOutcome(t: Table, plan: DeckPlan): (r: Table)
    requires Consistent(t)
    ensures Consistent(r)
    ensures t.phase != Playing ==> r == t
    ensures t.phase == Playing ==>
              && |r.playerHand| == |t.playerHand| + 1 && r.playerHand[..|t.playerHand|] == t.playerHand
              && r.playerHand == t.playerHand + [DrawFrom(t.deck, plan).0]
    ensures t.phase == Playing && HandValue(r.playerHand) > 21 ==>
              && r.confidence == t.confidence - t.currentBet && r.stats == RecordBust(t.stats) && r.phase == PhaseAfterBust(r.confidence)
              && r.dealerHand == t.dealerHand && r.deck == DrawFrom(t.deck, plan).1
    ensures t.phase == Playing && HandValue(r.playerHand) <= 21 && !t.hasDoubledDown ==>
              && r.phase == Playing && r.confidence == t.confidence && r.stats == t.stats
              && r.dealerHand == t.dealerHand && r.deck == DrawFrom(t.deck, plan).1
    ensures t.phase == Playing && HandValue(r.playerHand) <= 21 && t.hasDoubledDown ==>
              var s := Resolve(t.confidence, t.currentBet, HandValue(r.playerHand), HandValue(r.dealerHand));
              && (r.dealerHand, r.deck) == DealerPlay(t.dealerHand, DrawFrom(t.deck, plan).1, plan)
              && r.phase == PhaseAfterRound(r.confidence) && r.phase != Playing
              && r.confidence == s.confidence && r.stats == RecordRound(t.stats, s.won, s.confidence)
    ensures r.currentBet == t.currentBet && r.hasDoubledDown == t.hasDoubledDown
  {
    if t.phase != Playing then t
    else
      var (card, rest) := DrawFrom(t.deck, plan);
      var hand := t.playerHand + [card];
      assert hand[..|t.playerHand|] == t.playerHand;
      var drawn := t.(playerHand := hand, deck := rest);
      if HandValue(hand) > 21 then Bust(drawn)
      else if t.hasDoubledDown then StandOutcome(drawn, plan)
      else drawn
  }

  /** The condition under which the source's doubleDown acts. */
  predicate DoubleDownAllowed(t: Table) {
    t.phase == Playing && |t.playerHand| == 2 && t.confidence >= t.currentBet
  }

  /**
   * All-In (double down): the bet is taken from confidence, the bet is
   * doubled, and one card is hit; the round always settles on that card,
   * against the reduced confidence and the doubled bet. So a bust or a loss
   * costs three bets, a push one, and a win gains one.
   */
  function DoubleDownOutcome(t: Table, plan: DeckPlan): (r: Table)
    requires Consistent(t)
    ensures Consistent(r)
    ensures !DoubleDownAllowed(t) ==> r == t
    ensures DoubleDownAllowed(t) ==>
              && r.phase != Playing && |r.playerHand| == 3 && r.playerHand[..2] == t.playerHand
              && r.playerHand == t.playerHand + [DrawFrom(t.deck, plan).0]
              && r.currentBet == 2 * t.currentBet && r.hasDoubledDown
    ensures DoubleDownAllowed(t) ==>
              r.phase == (if HandValue(r.playerHand) > 21 then PhaseAfterBust(r.confidence) else PhaseAfterRound(r.confidence))
    ensures DoubleDownAllowed(t) && HandValue(r.playerHand) > 21 ==>
              r.dealerHand == t.dealerHand && r.deck == DrawFrom(t.deck, plan).1
    ensures DoubleDownAllowed(t) && HandValue(r.playerHand) <= 21 ==>
              (r.dealerHand, r.deck) == DealerPlay(t.dealerHand, DrawFrom(t.deck, plan).1, plan)
    ensures DoubleDownAllowed(t) ==>
              var b, pv, dv := t.currentBet, HandValue(r.playerHand), HandValue(r.dealerHand);
              && (pv > 21 ==> r.confidence == t.confidence - 3 * b && r.stats == RecordBust(t.stats))
              && (pv <= 21 && (dv > 21 || pv > dv) ==>
                    r.confidence == t.confidence + b && r.stats == RecordRound(t.stats, true, r.confidence))
              && (pv <= 21 && dv <= 21 && pv == dv ==>
                    r.confidence == t.confidence - b && r.stats == RecordRound(t.stats, false, r.confidence))
              && (pv <= 21 && dv <= 21 && pv < dv ==>
                    r.confidence == t.confidence - 3 * b && r.stats == RecordRound(t.stats, false, r.confidence))
  {
    if !DoubleDownAllowed(t) then t
    else
      HitOutcome(t.(confidence := t.confidence - t.currentBet,
                    currentBet := t.currentBet * 2,
                    hasDoubledDown := true), plan)
  }

  /**
   * Places a bet of at most the confidence held and deals two cards to each
   * side; a natural 21 settles at once. A larger bet is ignored.
   */
  function PlaceBetOutcome(t: Table, amount: int, plan: DeckPlan): (r: Table)
    requires Consistent(t)
    ensures Consistent(r)
    ensures amount > t.confidence ==> r == t
    ensures amount <= t.confidence ==>
              && r.currentBet == amount && !r.hasDoubledDown
              && |r.playerHand| == 2 && |r.dealerHand| == 2
              && (HandValue(r.playerHand) == 21 <==> r.phase != Playing)
              && (r.phase != Playing ==> r.confidence == t.confidence + 2 * amount)
              && (r.phase != Playing ==> r.stats == RecordRound(t.stats, true, r.confidence) && r.phase == PhaseAfterNatural(r.confidence))
              && (r.phase == Playing ==> r.confidence == t.confidence && r.stats == t.stats)
    ensures amount <= t.confidence ==>
              var d := DealFrom(t.deck, plan);
              r.playerHand == d.player && r.dealerHand == d.dealer && r.deck == d.rest
  {
    if amount > t.confidence then t
    else
      var d := DealFrom(t.deck, plan);
      OpeningHandWithin21(d.player[0], d.player[1]);
      assert d.player == [d.player[0], d.player[1]];
      var dealt := t.(currentBet := amount, hasDoubledDown := false,
                      playerHand := d.player, dealerHand := d.dealer, deck := d.rest, phase := Playing);
      if HandValue(d.player) == 21 then Natural(dealt) else dealt
  }

  /** Back to betting with empty hands and no bet. */
  function NextSprint(t: Table): (r: Table)
    ensures Standard(t) ==> Consistent(r)
    ensures r.phase == Betting && r.playerHand == [] && r.dealerHand == [] && r.currentBet == 0 && !r.hasDoubledDown
    ensures r.confidence == t.confidence && r.deck == t.deck && r.stats == t.stats
  {
    t.(playerHand := [], dealerHand := [], currentBet := 0, hasDoubledDown := false, phase := Betting)
  }

  /** A new game: 100 confidence, a shuffled fresh deck, the streak reset, and back to betting. */
  function RestartOutcome(t: Table, plan: DeckPlan): (r: Table)
    ensures Consistent(r)
    ensures r.phase == Betting && r.confidence == INITIAL_CONFIDENCE && r.currentBet == 0
    ensures r.playerHand == [] && r.dealerHand == [] && !r.hasDoubledDown
    ensures multiset(r.deck) == multiset(FullDeck()) && r.deck == Shuffled(FullDeck(), plan)
    ensures r.stats == RecordRestart(t.stats)
  {
    var opening := InitialTable(plan, None);
    NextSprint(t.(confidence := INITIAL_CONFIDENCE, deck := opening.deck, stats := RecordRestart(t.stats)))
  }

  // ---------------------------------------------------------------------------
  // Properties of a round

  /**
   * The net effect of a double down with the stake deducted and the bet
   * doubled before the round settles on the doubled bet: confidence moves by
   * one of +bet, -bet or -3 bets, and the streak grows exactly on +bet.
   */
  lemma DoubleDownNetOutcome(t: Table, plan: DeckPlan)
    requires Consistent(t) && DoubleDownAllowed(t) && t.currentBet > 0 && t.stats.currentStreak >= 0
    ensures var r := DoubleDownOutcome(t, plan);
            var b := t.currentBet;
            && (r.confidence == t.confidence + b || r.confidence == t.confidence - b || r.confidence == t.confidence - 3 * b)
            && (r.stats.currentStreak == t.stats.currentStreak + 1 <==> r.confidence == t.confidence + b)
  {
    var b := t.currentBet;
    var staked := t.(confidence := t.confidence - b, currentBet := b * 2, hasDoubledDown := true);
    var (card, rest) := DrawFrom(staked.deck, plan);
    var hand := staked.playerHand + [card];
    var drawn := staked.(playerHand := hand, deck := rest);
    assert DoubleDownOutcome(t, plan) == HitOutcome(staked, plan);
    if HandValue(hand) > 21 {
      assert HitOutcome(staked, plan) == Bust(drawn);
    } else {
      assert HitOutcome(staked, plan) == StandOutcome(drawn, plan);
      var d := DealerTurn(drawn, plan);
      assert StandOutcome(drawn, plan) == Settle(d, d.dealerHand);
    }
  }

  // ---------------------------------------------------------------------------
  // The double down as written: the iterate and handleBust of an earlier render

  /**
   * The double down as the source performs it. The iterate it calls was
   * created before the double down, so it sees no double down and does not
   * stand: a card within 21 leaves the round in play. A bust is settled by
   * the handleBust of that same earlier render, which sets confidence to the
   * confidence less the bet it saw, replacing the deduction just made.
   */
  function DoubleDownAsWritten(t: Table, plan: DeckPlan): (r: Table)
    requires Consistent(t)
    ensures !DoubleDownAllowed(t) ==> r == t
    ensures DoubleDownAllowed(t) ==>
              && r.playerHand == t.playerHand + [DrawFrom(t.deck, plan).0]
              && r.currentBet == 2 * t.currentBet && r.hasDoubledDown
    ensures DoubleDownAllowed(t) && HandValue(r.playerHand) > 21 ==>
              r.confidence == t.confidence - t.currentBet && r.phase == PhaseAfterBust(r.confidence)
    ensures DoubleDownAllowed(t) && HandValue(r.playerHand) <= 21 ==>
              r.phase == Playing && r.confidence == t.confidence - t.currentBet
  {
    if !DoubleDownAllowed(t) then t
    else
      var (card, rest) := DrawFrom(t.deck, plan);
      var hand := t.playerHand + [card];
      var staked := t.(confidence := t.confidence - t.currentBet, currentBet := t.currentBet * 2,
                       hasDoubledDown := true, playerHand := hand, deck := rest);
      if HandValue(hand) > 21 then
        var c := t.confidence - t.currentBet;
        staked.(confidence := c, stats := RecordBust(t.stats), phase := PhaseAfterBust(c))
      else staked
  }

  /** A table in play: king and queen against two and three, 100 confidence, a bet of 10, a king on top of the deck. */
  function BustingDoubleTable(): Table {
    Table(Playing, 100, 10, [MakeCard(Spades, King), MakeCard(Spades, Queen)],
          [MakeCard(Spades, Pip(2)), MakeCard(Spades, Pip(3))],
          [MakeCard(Hearts, King)] + FullDeck()[..14], false, InitialStats)
  }

  /**
   * On that table a double down draws the king and busts at 30. As written
   * it costs one bet (100 to 90); with the deduction kept, as the round is
   * meant to settle, it costs three (100 to 70).
   */
  lemma DoubleDownBustAsWrittenCostsOneBet(plan: DeckPlan)
    ensures var t := BustingDoubleTable();
            && Consistent(t) && DoubleDownAllowed(t)
            && DoubleDownAsWritten(t, plan).confidence == 90
            && DoubleDownOutcome(t, plan).confidence == 70
  {
    var t := BustingDoubleTable();
    var k, q, kh := MakeCard(Spades, King), MakeCard(Spades, Queen), MakeCard(Hearts, King);
    FullDeckHasEveryPair(Spades, King);
    FullDeckHasEveryPair(Spades, Queen);
    FullDeckHasEveryPair(Spades, Pip(2));
    FullDeckHasEveryPair(Spades, Pip(3));
    FullDeckHasEveryPair(Hearts, King);
    assert AllStandard(t.deck) by {
      forall c | c in t.deck
        ensures c in FullDeck()
      {
        if c != kh {
          var i :| 0 <= i < |t.deck| && t.deck[i] == c;
          assert c == FullDeck()[i - 1];
        }
      }
    }
    TwoCardTotals(k, q);
    assert HandValue(t.playerHand) == 20;
    assert DrawFrom(t.deck, plan).0 == kh;
    HardTotalAppend([k, q], kh);
    assert [k, q] + [kh] == t.playerHand + [kh];
    assert HandValue(t.playerHand + [kh]) == 30;
  }

  /** A stand, and a double down, always settle the round and count exactly one more sprint. */
  lemma RoundCountedOnce(t: Table, plan: DeckPlan)
    requires Consistent(t) && t.phase == Playing
    ensures StandOutcome(t, plan).stats.totalSprints == t.stats.totalSprints + 1
    ensures DoubleDownAllowed(t) ==> DoubleDownOutcome(t, plan).stats.totalSprints == t.stats.totalSprints + 1
  {
    var d := DealerTurn(t, plan);
    assert StandOutcome(t, plan) == Settle(d, d.dealerHand);
    if DoubleDownAllowed(t) {
      var staked := t.(confidence := t.confidence - t.currentBet, currentBet := t.currentBet * 2, hasDoubledDown := true);
      HitCountsOnce(staked, plan);
    }
  }

  /** A bet either deals a round still in play with the stats untouched, or pays a natural and counts exactly one more sprint. */
  lemma BetCountedOnce(t: Table, amount: int, plan: DeckPlan)
    requires Consistent(t) && amount <= t.confidence
    ensures var r := PlaceBetOutcome(t, amount, plan);
            if r.phase == Playing then r.stats == t.stats else r.stats.totalSprints == t.stats.totalSprints + 1
  {
  }

  /** A hit either leaves the round in play with the stats untouched, or settles it and counts exactly one more sprint. */
  lemma HitCountsOnce(t: Table, plan: DeckPlan)
    requires Consistent(t) && t.phase == Playing
    ensures var r := HitOutcome(t, plan);
            if r.phase == Playing then r.stats == t.stats else r.stats.totalSprints == t.stats.totalSprints + 1
  {
    var (card, rest) := DrawFrom(t.deck, plan);
    var hand := t.playerHand + [card];
    var drawn := t.(playerHand := hand, deck := rest);
    if HandValue(hand) <= 21 && t.hasDoubledDown {
      var d := DealerTurn(drawn, plan);
      assert StandOutcome(drawn, plan) == Settle(d, d.dealerHand);
    }
  }

  /** A stand moves confidence by at most the bet, and wins exactly when the dealer busts or is beaten. */
  lemma StandMovesAtMostTheBet(t: Table, plan: DeckPlan)
    requires Consistent(t) && t.phase == Playing && t.currentBet >= 0 && t.stats.currentStreak >= 0
    ensures var r := StandOutcome(t, plan);
            && t.confidence - t.currentBet <= r.confidence <= t.confidence + t.currentBet
            && (r.stats.currentStreak == t.stats.currentStreak + 1 <==>
                  HandValue(r.dealerHand) > 21 || HandValue(t.playerHand) > HandValue(r.dealerHand))
  {
    var d := DealerTurn(t, plan);
    assert StandOutcome(t, plan) == Settle(d, d.dealerHand);
  }

  // ---------------------------------------------------------------------------
  // The session

  /** One game session; its fields are the component's state. */
  class Session {
    var phase: Phase
    var confidence: int
    var currentBet: int
    var playerHand: seq<Card>
    var dealerHand: seq<Card>
    var deck: seq<Card>
    var hasDoubledDown: bool
    var stats: GameStats

    function State(): Table
      reads this
    {
      Table(phase, confidence, currentBet, playerHand, dealerHand, deck, hasDoubledDown, stats)
    }

    ghost predicate Valid()
      reads this
    {
      Consistent(State())
    }

    /** A new session, with the stats stored by an earlier one if any. */
    constructor (plan: DeckPlan, saved: Option<GameStats>)
      ensures Valid()
      ensures State() == InitialTable(plan, saved)
    {
      var newDeck := CreateDeck();
      var shuffled := ShuffleDeck(newDeck, plan);
      phase := Betting;
      confidence := INITIAL_CONFIDENCE;
      currentBet := 0;
      playerHand := [];
      dealerHand := [];
      deck := shuffled;
      hasDoubledDown := false;
      stats := saved.GetOr(InitialStats);
      PermutationOfFullDeckIsStandard(shuffled);
    }

    /** Draws the top card, first replacing a deck of fewer than 15 cards by a fresh shuffled one. */
    method DrawCard(plan: DeckPlan) returns (card: Card)
      requires Standard(State())
      modifies this`deck
      ensures Standard(State())
      ensures (card, deck) == DrawFrom(old(deck), plan)
    {
      ghost var drawn := DrawFrom(deck, plan);
      var current := deck;
      if |current| < REFILL_BELOW {
        var newDeck := CreateDeck();
        current := ShuffleDeck(newDeck, plan);
      }
      card := current[0];
      deck := current[1..];
    }

    /** Deals player, dealer, player, dealer, each card drawn from the deck the last draw left. */
    method Deal(plan: DeckPlan)
      requires Standard(State())
      modifies this`deck, this`playerHand, this`dealerHand
      ensures Standard(State())
      ensures var d := DealFrom(old(deck), plan);
              playerHand == d.player && dealerHand == d.dealer && deck == d.rest
    {
      ghost var dealt := DealFrom(deck, plan);
      var playerCard1 := DrawCard(plan);
      var dealerCard1 := DrawCard(plan);
      var playerCard2 := DrawCard(plan);
      var dealerCard2 := DrawCard(plan);
      playerHand := [playerCard1, playerCard2];
      dealerHand := [dealerCard1, dealerCard2];
    }

    method HandleBlackjack()
      requires Standard(State())
      modifies this`confidence, this`stats, this`phase
      ensures State() == Natural(old(State()))
    {
      var winnings := currentBet * 2;
      var newConfidence := confidence + winnings;
      confidence := newConfidence;
      stats := RecordRound(stats, true, newConfidence);
      phase := PhaseAfterNatural(newConfidence);
    }

    method HandleBust()
      requires Standard(State())
      modifies this`confidence, this`stats, this`phase
      ensures State() == Bust(old(State()))
    {
      var newConfidence := confidence - currentBet;
      confidence := newConfidence;
      stats := RecordBust(stats);
      phase := PhaseAfterBust(newConfidence);
    }

    method ResolveRound(finalDealerHand: seq<Card>)
      requires Standard(State())
      modifies this`confidence, this`stats, this`phase
      ensures State() == Settle(old(State()), finalDealerHand)
    {
      var playerValue := CalculateHandValue(playerHand);
      var dealerValue := CalculateHandValue(finalDealerHand);
      var newConfidence := confidence;
      var won := false;
      if dealerValue > 21 {
        newConfidence := confidence + currentBet;
        won := true;
      } else if playerValue > dealerValue {
        newConfidence := confidence + currentBet;
        won := true;
      } else if playerValue < dealerValue {
        newConfidence := confidence - currentBet;
      }
      confidence := newConfidence;
      stats := RecordRound(stats, won, newConfidence);
      if newConfidence >= WIN_CONFIDENCE {
        phase := GameWon;
      } else if newConfidence <= 0 {
        phase := GameOver;
      } else {
        phase := Retrospective;
      }
    }

    method PlaceBet(amount: int, plan: DeckPlan)
      requires Valid()
      modifies this
      ensures Valid()
      ensures State() == PlaceBetOutcome(old(State()), amount, plan)
    {
      if amount > confidence {
        return;
      }
      ghost var before := State();
      ghost var d := DealFrom(deck, plan);
      currentBet := amount;
      hasDoubledDown := false;
      Deal(plan);
      phase := Playing;
      ghost var dealt := before.(currentBet := amount, hasDoubledDown := false,
                                 playerHand := d.player, dealerHand := d.dealer, deck := d.rest, phase := Playing);
      assert State() == dealt;
      var playerValue := CalculateHandValue(playerHand);
      if playerValue == 21 {
        HandleBlackjack();
        assert State() == Natural(dealt);
      } else {
        OpeningHandWithin21(playerHand[0], playerHand[1]);
        assert playerHand == [playerHand[0], playerHand[1]];
      }
    }

    /** The All-In button is offered exactly when doubleDown would act and no double down has been made this round. */
    function CanDoubleDown(): (r: bool)
      reads this
      ensures r <==> DoubleDownAllowed(State()) && !hasDoubledDown
    {
      phase == Playing && |playerHand| == 2 && confidence >= currentBet && !hasDoubledDown
    }

    method ShipIt(plan: DeckPlan)
      requires Valid()
      modifies this
      ensures Valid()
      ensures State() == StandOutcome(old(State()), plan)
    {
      if phase != Playing {
        return;
      }
      var dealerValue := CalculateHandValue(dealerHand);
      while dealerValue < DEALER_STANDS_AT
        invariant Valid()
        invariant dealerValue == HandValue(dealerHand)
        invariant DealerPlay(dealerHand, deck, plan) == DealerPlay(old(dealerHand), old(deck), plan)
        invariant phase == old(phase) && confidence == old(confidence) && stats == old(stats)
        invariant playerHand == old(playerHand) && currentBet == old(currentBet)
        invariant hasDoubledDown == old(hasDoubledDown)
        decreases DEALER_STANDS_AT - HardTotal(dealerHand)
      {
        HandValueIsBestTotal(dealerHand);
        ghost var before := dealerHand;
        var newCard := DrawCard(plan);
        dealerHand := dealerHand + [newCard];
        StandardCardValues(newCard);
        HardTotalAppend(before, newCard);
        dealerValue := CalculateHandValue(dealerHand);
      }
      ResolveRound(dealerHand);
    }

    method Iterate(plan: DeckPlan)
      requires Valid()
      modifies this
      ensures Valid()
      ensures State() == HitOutcome(old(State()), plan)
    {
      if phase != Playing {
        return;
      }
      var newCard := DrawCard(plan);
      playerHand := playerHand + [newCard];
      var value := CalculateHandValue(playerHand);
      if value > 21 {
        HandleBust();
      } else if hasDoubledDown {
        ShipIt(plan);
      }
    }

    method DoubleDown(plan: DeckPlan)
      requires Valid()
      modifies this
      ensures Valid()
      ensures State() == DoubleDownOutcome(old(State()), plan)
    {
      if phase != Playing || |playerHand| != 2 {
        return;
      }
      if confidence < currentBet {
        return;
      }
      confidence := confidence - currentBet;
      currentBet := currentBet * 2;
      hasDoubledDown := true;
      Iterate(plan);
    }

    method PlanNextSprint()
      modifies this`playerHand, this`dealerHand, this`currentBet, this`hasDoubledDown, this`phase
      ensures State() == NextSprint(old(State()))
    {
      playerHand := [];
      dealerHand := [];
      currentBet := 0;
      hasDoubledDown := false;
      phase := Betting;
    }

    method RestartGame(plan: DeckPlan)
      modifies this
      ensures Valid()
      ensures State() == RestartOutcome(old(State()), plan)
    {
      confidence := INITIAL_CONFIDENCE;
      var newDeck := CreateDeck();
      deck := ShuffleDeck(newDeck, plan);
      PermutationOfFullDeckIsStandard(deck);
      stats := RecordRestart(stats);
      PlanNextSprint();
    }
  }
}
