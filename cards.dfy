/**
 * Card arithmetic of Sprint Blackjack: ranks and their ticket ids, the
 * 52-card deck, the Fisher-Yates shuffle and the soft-ace hand value.
 */
module Cards {

  datatype Suit = Spades | Hearts | Diamonds | Clubs

  /** A card's face. Number cards carry the integer their face text parses to. */
  datatype Rank = Ace | Pip(n: int) | Jack | Queen | King

  datatype Card = Card(suit: Suit, value: Rank, numericValue: int, ticketId: string)

  const Suits: seq<Suit> := [Spades, Hearts, Diamonds, Clubs]
  const Ranks: seq<Rank> :=
    [Ace, Pip(2), Pip(3), Pip(4), Pip(5), Pip(6), Pip(7), Pip(8), Pip(9), Pip(10), Jack, Queen, King]

  // ---------------------------------------------------------------------------
  // Ticket ids

  function DigitChar(d: int): char
    requires 0 <= d < 10
  {
    (48 + d) as char
  }

  /** Decimal text of a natural number. */
  function Digits(n: nat): string
    decreases n
  {
    if n < 10 then [DigitChar(n)] else Digits(n / 10) + [DigitChar(n % 10)]
  }

  /** Decimal text of an integer, as a template literal prints it. */
  function IntText(n: int): string {
    if n < 0 then "-" + Digits(-n) else Digits(n)
  }

  /** The ticket id printed on a card of the given rank. */
  function TicketId(r: Rank): string {
    match r
    case Ace => "EPIC-1"
    case Pip(n) =>
      if 2 <= n <= 4 then "BUG-" + IntText(n)
      else if 5 <= n <= 7 then "TASK-" + IntText(n)
      else if 8 <= n <= 10 then "STORY-" + IntText(n)
      else "TICKET-" + IntText(n)
    case Jack => "SPIKE-J"
    case Queen => "FEATURE-Q"
    case King => "FEATURE-K"
  }

  /** The points a rank is worth with an ace counted high. */
  function NumericValue(r: Rank): int {
    match r
    case Ace => 11
    case Pip(n) => n
    case Jack => 10
    case Queen => 10
    case King => 10
  }

  function MakeCard(s: Suit, r: Rank): Card {
    Card(s, r, NumericValue(r), TicketId(r))
  }

  const RankTicketIds: seq<string> :=
    ["EPIC-1", "BUG-2", "BUG-3", "BUG-4", "TASK-5", "TASK-6", "TASK-7",
     "STORY-8", "STORY-9", "STORY-10", "SPIKE-J", "FEATURE-Q", "FEATURE-K"]

  lemma TicketIdsListed(i: int)
    requires 0 <= i < |Ranks|
    ensures TicketId(Ranks[i]) == RankTicketIds[i]
  {
    if 1 <= i <= 8 {
      assert Ranks[i] == Pip(i + 1);
      assert IntText(i + 1) == [DigitChar(i + 1)];
    } else if i == 9 {
      assert IntText(10) == "10";
    }
  }

  /** The ticket ids of the thirteen ranks of a suit are pairwise different. */
  lemma TicketIdsDistinct()
    ensures forall i, j :: 0 <= i < j < |Ranks| ==> TicketId(Ranks[i]) != TicketId(Ranks[j])
  {
    forall i, j | 0 <= i < j < |Ranks|
      ensures TicketId(Ranks[i]) != TicketId(Ranks[j])
    {
      TicketIdsListed(i);
      TicketIdsListed(j);
      assert RankTicketIds[i] != RankTicketIds[j];
    }
  }

  // ---------------------------------------------------------------------------
  // The deck

  /** The fresh deck: suits in order, and within a suit the ranks A, 2..10, J, Q, K. */
  function FullDeck(): (d: seq<Card>)
    ensures |d| == 52
  {
    seq(52, i requires 0 <= i < 52 => MakeCard(Suits[i / 13], Ranks[i % 13]))
  }

  /** Builds the fresh deck suit by suit, rank by rank. */
  method CreateDeck() returns (deck: seq<Card>)
    ensures deck == FullDeck()
  {
    deck := [];
    for s := 0 to |Suits|
      invariant deck == FullDeck()[..13 * s]
    {
      for v := 0 to |Ranks|
        invariant deck == FullDeck()[..13 * s + v]
      {
        DeckSlot(s, v);
        PrefixGrows(FullDeck(), 13 * s + v);
        deck := deck + [MakeCard(Suits[s], Ranks[v])];
      }
    }
    assert FullDeck()[..52] == FullDeck();
  }

  lemma PrefixGrows<T>(s: seq<T>, n: nat)
    requires n < |s|
    ensures s[..n + 1] == s[..n] + [s[n]]
  {
  }

  lemma DeckSlot(s: nat, v: nat)
    requires s < 4 && v < 13
    ensures FullDeck()[13 * s + v] == MakeCard(Suits[s], Ranks[v])
  {
    var k := 13 * s + v;
    assert k / 13 == s && k % 13 == v;
  }

  lemma RanksDistinct()
    ensures forall i, j :: 0 <= i < j < |Ranks| ==> Ranks[i] != Ranks[j]
  {
  }

  /** Every (suit, rank) pair has a card in the fresh deck. */
  lemma FullDeckHasEveryPair(s: Suit, r: Rank)
    requires s in Suits && r in Ranks
    ensures MakeCard(s, r) in FullDeck()
  {
    var a :| 0 <= a < 4 && Suits[a] == s;
    var b :| 0 <= b < 13 && Ranks[b] == r;
    DeckSlot(a, b);
  }

  /** Every card of the fresh deck is the card of a standard (suit, rank) pair. */
  lemma FullDeckHasOnlyPairs(c: Card)
    requires c in FullDeck()
    ensures exists s, r :: s in Suits && r in Ranks && c == MakeCard(s, r)
  {
    var i :| 0 <= i < 52 && FullDeck()[i] == c;
    assert c == MakeCard(Suits[i / 13], Ranks[i % 13]);
  }

  /** No card occurs twice in the fresh deck. */
  lemma FullDeckHasNoRepeats(i: int, j: int)
    requires 0 <= i < j < 52
    ensures FullDeck()[i] != FullDeck()[j]
  {
    RanksDistinct();
    var d := FullDeck();
    if i / 13 == j / 13 {
      assert i % 13 != j % 13;
      assert d[i].value == Ranks[i % 13] && d[j].value == Ranks[j % 13];
    } else {
      assert d[i].suit == Suits[i / 13] && d[j].suit == Suits[j / 13];
    }
  }

  /** Every card of the fresh deck is worth 1 to 10 points with aces low, and 11 exactly when it is an ace. */
  lemma StandardCardValues(c: Card)
    requires c in FullDeck()
    ensures c.value == Ace <==> c.numericValue == 11
    ensures c.value != Ace ==> 2 <= c.numericValue <= 10
    ensures 1 <= CardPoints(c) <= 10
  {
    var i :| 0 <= i < 52 && FullDeck()[i] == c;
    var s, k := i / 13, i % 13;
    DeckSlot(s, k);
    assert 13 * s + k == i;
    RankValue(k);
  }

  lemma RankValue(k: int)
    requires 0 <= k < |Ranks|
    ensures Ranks[k] == Ace <==> NumericValue(Ranks[k]) == 11
    ensures Ranks[k] != Ace ==> 2 <= NumericValue(Ranks[k]) <= 10
  {
    if 1 <= k <= 8 {
      assert Ranks[k] == Pip(k + 1);
    }
  }

  // ---------------------------------------------------------------------------
  // Fisher-Yates shuffle, with the random draws given as swap indices

  /**
   * A plan of swap indices for a list of n cards: at step i (counting down from
   * n - 1 to 1) slot i is swapped with slot plan[i], which lies in [0, i] as
   * Math.floor(Math.random() * (i + 1)) does.
   */
  predicate ValidPlan(n: nat, plan: seq<int>) {
    |plan| == n && forall i :: 0 < i < n ==> 0 <= plan[i] <= i
  }

  function Swap<T>(s: seq<T>, i: nat, j: nat): (r: seq<T>)
    requires i < |s| && j < |s|
  {
    s[i := s[j]][j := s[i]]
  }

  /** The list once the steps i, i - 1, ..., 1 of the shuffle have been applied to s. */
  function ShuffledFrom<T>(s: seq<T>, plan: seq<int>, i: int): (r: seq<T>)
    requires ValidPlan(|s|, plan) && i < |s|
    ensures |r| == |s|
    decreases i
  {
    if i <= 0 then s
    else
      var t := Swap(s, i, plan[i]);
      ShuffledFrom(t, plan, i - 1)
  }

  function Shuffled<T>(s: seq<T>, plan: seq<int>): (r: seq<T>)
    requires ValidPlan(|s|, plan)
    ensures |r| == |s|
  {
    ShuffledFrom(s, plan, |s| - 1)
  }

  lemma SwapIsPermutation<T>(s: seq<T>, i: nat, j: nat)
    requires i < |s| && j < |s|
    ensures |Swap(s, i, j)| == |s|
    ensures multiset(Swap(s, i, j)) == multiset(s)
  {
    var u := s[i := s[j]];
    assert multiset(u) == multiset(s) - multiset{s[i]} + multiset{s[j]};
    assert multiset(u[j := s[i]]) == multiset(u) - multiset{u[j]} + multiset{s[i]};
  }

  lemma {:induction false} ShuffledFromIsPermutation<T>(s: seq<T>, plan: seq<int>, i: int)
    requires ValidPlan(|s|, plan) && i < |s|
    ensures |ShuffledFrom(s, plan, i)| == |s|
    ensures multiset(ShuffledFrom(s, plan, i)) == multiset(s)
    decreases i
  {
    if i > 0 {
      SwapIsPermutation(s, i, plan[i]);
      ShuffledFromIsPermutation(Swap(s, i, plan[i]), plan, i - 1);
    }
  }

  /** A shuffle returns a permutation of its input: same length, same cards, same multiplicities. */
  lemma ShuffledIsPermutation<T>(s: seq<T>, plan: seq<int>)
    requires ValidPlan(|s|, plan)
    ensures |Shuffled(s, plan)| == |s|
    ensures multiset(Shuffled(s, plan)) == multiset(s)
  {
    ShuffledFromIsPermutation(s, plan, |s| - 1);
  }

  /**
   * Shuffles a copy of the deck in place, swapping slots from the last down to
   * the second. The argument is a value, so it is left as it was.
   */
  method ShuffleDeck(deck: seq<Card>, plan: seq<int>) returns (shuffled: seq<Card>)
    requires ValidPlan(|deck|, plan)
    ensures shuffled == Shuffled(deck, plan)
    ensures multiset(shuffled) == multiset(deck)
  {
    var a := new Card[|deck|](k requires 0 <= k < |deck| => deck[k]);
    assert a[..] == deck;
    var i := a.Length - 1;
    while i > 0
      invariant i < a.Length
      invariant |a[..]| == |deck|
      invariant ShuffledFrom(a[..], plan, i) == Shuffled(deck, plan)
    {
      var j := plan[i];
      ghost var before := a[..];
      var tmp := a[i];
      a[i] := a[j];
      a[j] := tmp;
      assert a[..] == Swap(before, i, j);
      i := i - 1;
    }
    shuffled := a[..];
    ShuffledIsPermutation(deck, plan);
  }

  // ---------------------------------------------------------------------------
  // Hand value

  /** Points of a card with an ace counted as 1. */
  function CardPoints(c: Card): int {
    if c.value == Ace then 1 else c.numericValue
  }

  /** The hand's total with every ace counted as 1. */
  function HardTotal(hand: seq<Card>): int {
    if hand == [] then 0 else HardTotal(hand[..|hand| - 1]) + CardPoints(hand[|hand| - 1])
  }

  function AceCount(hand: seq<Card>): nat {
    if hand == [] then 0 else AceCount(hand[..|hand| - 1]) + (if hand[|hand| - 1].value == Ace then 1 else 0)
  }

  lemma HardTotalAppend(hand: seq<Card>, c: Card)
    ensures HardTotal(hand + [c]) == HardTotal(hand) + CardPoints(c)
    ensures AceCount(hand + [c]) == AceCount(hand) + (if c.value == Ace then 1 else 0)
  {
    assert (hand + [c])[..|hand|] == hand;
  }

  /** The hand's total when k of its aces count 11 and the others 1. */
  function TotalWithHighAces(hand: seq<Card>, k: int): int {
    HardTotal(hand) + 10 * k
  }

  /** How many of `aces` aces can count 11: the most that keeps hard + 10 * k within 21, or none. */
  function HighAces(hard: int, aces: nat): nat {
    if aces == 0 || hard + 10 * aces <= 21 then aces else HighAces(hard, aces - 1)
  }

  /** The value of a hand: aces count 11 as long as the total stays within 21. */
  function HandValue(hand: seq<Card>): int {
    HardTotal(hand) + 10 * HighAces(HardTotal(hand), AceCount(hand))
  }

  lemma {:induction false} HighAcesIsBest(hard: int, aces: nat)
    ensures HighAces(hard, aces) <= aces
    ensures HighAces(hard, aces) > 0 ==> hard + 10 * HighAces(hard, aces) <= 21
    ensures HighAces(hard, aces) < aces ==> hard + 10 * (HighAces(hard, aces) + 1) > 21
  {
    if aces != 0 && hard + 10 * aces > 21 {
      HighAcesIsBest(hard, aces - 1);
    }
  }

  /**
   * The hand value is the hard total plus 10 for some number k of aces, with
   * k no more than the aces held; it is the best such total within 21 when
   * one exists (so it exceeds 21 only with k = 0), and the empty hand is 0.
   */
  lemma HandValueIsBestTotal(hand: seq<Card>)
    ensures exists k :: 0 <= k <= AceCount(hand) && HandValue(hand) == TotalWithHighAces(hand, k)
    ensures HandValue(hand) > 21 ==> HandValue(hand) == HardTotal(hand)
    ensures forall k :: 0 <= k <= AceCount(hand) && TotalWithHighAces(hand, k) <= 21 ==>
              TotalWithHighAces(hand, k) <= HandValue(hand) <= 21
    ensures HandValue(hand) >= HardTotal(hand)
    ensures hand == [] ==> HandValue(hand) == 0
  {
    var h, a := HardTotal(hand), AceCount(hand);
    var m := HighAces(h, a);
    HighAcesIsBest(h, a);
    assert HandValue(hand) == TotalWithHighAces(hand, m);
    forall k | 0 <= k <= a && TotalWithHighAces(hand, k) <= 21
      ensures TotalWithHighAces(hand, k) <= HandValue(hand) <= 21
    {
      assert k <= m;
    }
  }

  /** Totals a hand: every ace first counts 11, then aces drop to 1 while the total exceeds 21. */
  method CalculateHandValue(hand: seq<Card>) returns (value: int)
    ensures value == HandValue(hand)
  {
    value := 0;
    var aces := 0;
    for i := 0 to |hand|
      invariant aces == AceCount(hand[..i])
      invariant value == HardTotal(hand[..i]) + 10 * aces
    {
      assert hand[..i + 1][..i] == hand[..i];
      if hand[i].value == Ace {
        aces := aces + 1;
        value := value + 11;
      } else {
        value := value + hand[i].numericValue;
      }
    }
    assert hand[..|hand|] == hand;
    ghost var hard, all := HardTotal(hand), aces;
    while value > 21 && aces > 0
      invariant 0 <= aces <= all
      invariant value == hard + 10 * aces
      invariant HighAces(hard, aces) == HighAces(hard, all)
    {
      value := value - 10;
      aces := aces - 1;
    }
  }
}
