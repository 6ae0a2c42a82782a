/**
 The hand engine of the blackjack demo: the shuffled deck, drawing from it, the value of a
 hand and the two draw loops. Suits and ranks are those of newDeck.
 */
module Blackjack {

  datatype Rank = Ace | Pip(n: int) | Jack | Queen | King

  datatype Suit = Spades | Hearts | Diamonds | Clubs

  datatype Card = Card(rank: Rank, suit: Suit)

  // ---- The value of a hand ----

  /** An ace counts eleven at first. */
  function HighPoints(c: Card): int {
    match c.rank
    case Ace => 11
    case Pip(n) => n
    case _ => 10
  }

  function HighTotal(hand: seq<Card>): int {
    if hand == [] then 0 else HighTotal(hand[..|hand| - 1]) + HighPoints(hand[|hand| - 1])
  }

  function Aces(hand: seq<Card>): nat {
    if hand == [] then 0 else Aces(hand[..|hand| - 1]) + if hand[|hand| - 1].rank.Ace? then 1 else 0
  }

  /** Ten is taken off for one ace after another while the total is over 21. */
  function Reduce(total: int, aces: nat): int {
    if total > 21 && aces > 0 then Reduce(total - 10, aces - 1) else total
  }

  function HandTotal(hand: seq<Card>): int {
    Reduce(HighTotal(hand), Aces(hand))
  }

  method HandValue(hand: seq<Card>) returns (total: int)
    ensures total == HandTotal(hand)
  {
    total := 0;
    var aces := 0;
    for i := 0 to |hand|
      invariant aces >= 0
      invariant total == HighTotal(hand[..i]) && aces == Aces(hand[..i])
    {
      assert hand[..i + 1][..i] == hand[..i];
      match hand[i].rank {
        case Ace =>
          total := total + 11;
          aces := aces + 1;
        case Jack => total := total + 10;
        case Queen => total := total + 10;
        case King => total := total + 10;
        case Pip(n) => total := total + n;
      }
    }
    assert hand[..|hand|] == hand;
    while total > 21 && aces > 0
      invariant aces >= 0
      invariant Reduce(total, aces) == HandTotal(hand)
    {
      total := total - 10;
      aces := aces - 1;
    }
  }

  // ---- What the greedy reduction computes ----

  /** What a card may count: a court card ten, a pip card its number, an ace one or eleven. */
  predicate Counts(c: Card, points: int) {
    match c.rank
    case Ace => points == 1 || points == 11
    case Pip(n) => points == n
    case Jack => points == 10
    case Queen => points == 10
    case King => points == 10
  }

  function Sum(points: seq<int>): int {
    if points == [] then 0 else Sum(points[..|points| - 1]) + points[|points| - 1]
  }

  /** Every card counts as one of its worths. */
  ghost predicate Choice(hand: seq<Card>, points: seq<int>) {
    |points| == |hand| && forall i | 0 <= i < |hand| :: Counts(hand[i], points[i])
  }

  /** Some choice of one or eleven for each ace gives this total. */
  ghost predicate Achievable(hand: seq<Card>, total: int) {
    exists points: seq<int> :: Choice(hand, points) && Sum(points) == total
  }

  /** The largest total not above 21 if there is one, otherwise the smallest of all. */
  ghost predicate IsBest(hand: seq<Card>, total: int) {
    && Achievable(hand, total)
    && forall u | Achievable(hand, u) :: if total <= 21 then u <= total || u > 21 else total <= u
  }

  lemma {:induction false} ChoiceLowers(hand: seq<Card>, points: seq<int>) returns (low: nat)
    requires Choice(hand, points)
    ensures low <= Aces(hand) && Sum(points) == HighTotal(hand) - 10 * low
  {
    if hand == [] {
      low := 0;
    } else {
      var n := |hand| - 1;
      low := ChoiceLowers(hand[..n], points[..n]);
      assert Counts(hand[n], points[n]);
      if hand[n].rank.Ace? && points[n] == 1 {
        low := low + 1;
      }
    }
  }

  lemma {:induction false} LowerChoice(hand: seq<Card>, low: nat) returns (points: seq<int>)
    requires low <= Aces(hand)
    ensures Choice(hand, points) && Sum(points) == HighTotal(hand) - 10 * low
  {
    if hand == [] {
      points := [];
    } else {
      var n := |hand| - 1;
      var lowered := hand[n].rank.Ace? && low > 0;
      var rest := LowerChoice(hand[..n], if lowered then low - 1 else low);
      points := rest + [if lowered then 1 else HighPoints(hand[n])];
      assert points[..n] == rest;
    }
  }

  lemma AchievableTotals(hand: seq<Card>, total: int)
    ensures Achievable(hand, total) <==> exists low: nat :: low <= Aces(hand) && total == HighTotal(hand) - 10 * low
  {
    if Achievable(hand, total) {
      var points :| Choice(hand, points) && Sum(points) == total;
      var low := ChoiceLowers(hand, points);
    }
    if low: nat :| low <= Aces(hand) && total == HighTotal(hand) - 10 * low {
      var points := LowerChoice(hand, low);
    }
  }

  lemma {:induction false} ReduceStops(total: int, aces: nat) returns (low: nat)
    ensures low <= aces && Reduce(total, aces) == total - 10 * low
    ensures Reduce(total, aces) > 21 ==> low == aces
    ensures low > 0 ==> total - 10 * (low - 1) > 21
  {
    if total > 21 && aces > 0 {
      low := ReduceStops(total - 10, aces - 1);
      low := low + 1;
    } else {
      low := 0;
    }
  }

  /** For every hand, handValue is the best total over all choices of one or eleven per ace. */
  lemma HandTotalIsBest(hand: seq<Card>)
    ensures IsBest(hand, HandTotal(hand))
  {
    var low := ReduceStops(HighTotal(hand), Aces(hand));
    AchievableTotals(hand, HandTotal(hand));
    forall u | Achievable(hand, u)
      ensures if HandTotal(hand) <= 21 then u <= HandTotal(hand) || u > 21 else HandTotal(hand) <= u
    {
      AchievableTotals(hand, u);
    }
  }

  lemma BestIsUnique(hand: seq<Card>, t: int, u: int)
    requires IsBest(hand, t) && IsBest(hand, u)
    ensures t == u
  {}

  // ---- The order of the cards does not matter ----

  lemma {:induction false} TotalsConcat(a: seq<Card>, b: seq<Card>)
    ensures HighTotal(a + b) == HighTotal(a) + HighTotal(b)
    ensures Aces(a + b) == Aces(a) + Aces(b)
  {
    if b == [] {
      assert a + b == a;
    } else {
      var n := |b| - 1;
      TotalsConcat(a, b[..n]);
      assert (a + b)[..|a + b| - 1] == a + b[..n];
    }
  }

  lemma TotalsSplit(hand: seq<Card>, i: nat)
    requires i < |hand|
    ensures var rest := hand[..i] + hand[i + 1..];
      && HighTotal(hand) == HighTotal(rest) + HighPoints(hand[i])
      && Aces(hand) == Aces(rest) + (if hand[i].rank.Ace? then 1 else 0)
      && multiset(hand) == multiset(rest) + multiset{hand[i]}
  {
    var c := [hand[i]];
    assert hand == hand[..i] + (c + hand[i + 1..]);
    assert c[..0] == [];
    TotalsConcat(hand[..i], c + hand[i + 1..]);
    TotalsConcat(c, hand[i + 1..]);
    TotalsConcat(hand[..i], hand[i + 1..]);
  }

  lemma {:induction false} TotalsUnordered(a: seq<Card>, b: seq<Card>)
    requires multiset(a) == multiset(b)
    ensures HighTotal(a) == HighTotal(b) && Aces(a) == Aces(b)
  {
    if a == [] {
      assert |multiset(b)| == 0;
    } else {
      var n := |a| - 1;
      var c := a[n];
      assert c in multiset(a) && c in b;
      var i :| 0 <= i < |b| && b[i] == c;
      TotalsSplit(a, n);
      TotalsSplit(b, i);
      assert a[..n] + a[n + 1..] == a[..n];
      assert multiset(a[..n]) == multiset(a) - multiset{c} == multiset(b) - multiset{c} == multiset(b[..i] + b[i + 1..]);
      TotalsUnordered(a[..n], b[..i] + b[i + 1..]);
    }
  }

  /** Hands with the same cards have the same value. */
  lemma HandTotalUnordered(a: seq<Card>, b: seq<Card>)
    requires multiset(a) == multiset(b)
    ensures HandTotal(a) == HandTotal(b)
  {
    TotalsUnordered(a, b);
  }

  // ---- The deck ----

  const RANKS: seq<Rank> :=
    [Ace, Pip(2), Pip(3), Pip(4), Pip(5), Pip(6), Pip(7), Pip(8), Pip(9), Pip(10), Jack, Queen, King]

  const SUITS: seq<Suit> := [Spades, Hearts, Diamonds, Clubs]

  /** The unshuffled deck: every rank of every suit. */
  function FullDeck(): (d: seq<Card>)
    ensures |d| == 52
  {
    seq(52, i requires 0 <= i < 52 => Card(RANKS[i % 13], SUITS[i / 13]))
  }

  ghost predicate Distinct<T>(s: seq<T>) {
    forall i, j | 0 <= i < j < |s| :: s[i] != s[j]
  }

  /** A rank found in the deck. */
  predicate Playable(c: Card) {
    c.rank.Pip? ==> 2 <= c.rank.n <= 10
  }

  lemma FullDeckDistinct()
    ensures Distinct(FullDeck())
    ensures forall c | c in FullDeck() :: Playable(c)
  {
    assert Distinct(RANKS) && Distinct(SUITS);
    assert forall r | r in RANKS :: r.Pip? ==> 2 <= r.n <= 10;
    forall i, j | 0 <= i < j < 52 ensures FullDeck()[i] != FullDeck()[j] {
      if i / 13 == j / 13 {
        assert i % 13 != j % 13;
      }
    }
  }

  lemma {:induction false} DistinctCounts<T>(s: seq<T>)
    ensures Distinct(s) <==> forall x :: multiset(s)[x] <= 1
  {
    if s != [] {
      var n := |s| - 1;
      var front, last := s[..n], s[n];
      DistinctCounts(front);
      assert s == front + [last];
      assert multiset(s) == multiset(front) + multiset{last};
      assert Distinct(s) <==> Distinct(front) && last !in front;
      assert last in front <==> multiset(front)[last] > 0;
      if forall x :: multiset(s)[x] <= 1 {
        forall x ensures multiset(front)[x] <= 1 {
          assert multiset(front)[x] <= multiset(s)[x];
        }
        assert multiset(s)[last] == multiset(front)[last] + 1;
      }
    }
  }

  lemma NextCard(s: nat, r: nat)
    requires s < 4 && r < 13
    ensures FullDeck()[..13 * s + r] + [Card(RANKS[r], SUITS[s])] == FullDeck()[..13 * s + r + 1]
  {
    assert (13 * s + r) % 13 == r && (13 * s + r) / 13 == s;
  }

  method Shuffle(a: array<Card>, picks: nat -> nat)
    requires forall i: nat :: picks(i) <= i
    modifies a
    ensures multiset(a[..]) == old(multiset(a[..]))
  {
    var i := a.Length - 1;
    while i > 0
      invariant i < a.Length
      invariant multiset(a[..]) == old(multiset(a[..]))
    {
      var j := picks(i);
      a[i], a[j] := a[j], a[i];
      i := i - 1;
    }
  }

  /** `picks` stands for the random source: the position each card is swapped with. */
  method NewDeck(picks: nat -> nat) returns (deck: seq<Card>)
    requires forall i: nat :: picks(i) <= i
    ensures multiset(deck) == multiset(FullDeck())
  {
    hide FullDeck;
    deck := [];
    for s := 0 to |SUITS|
      invariant |deck| == 13 * s && deck == FullDeck()[..13 * s]
    {
      for r := 0 to |RANKS|
        invariant |deck| == 13 * s + r && deck == FullDeck()[..13 * s + r]
      {
        NextCard(s, r);
        deck := deck + [Card(RANKS[r], SUITS[s])];
      }
    }
    assert deck == FullDeck();
    var a := new Card[|deck|](i requires 0 <= i < |deck| => deck[i]);
    assert a[..] == deck;
    Shuffle(a, picks);
    deck := a[..];
  }

  class Deck {
    var cards: seq<Card>

    constructor (cards: seq<Card>)
      ensures this.cards == cards
    {
      this.cards := cards;
    }

    /** Indexing an empty deck would be a run-time panic. */
    method Draw() returns (c: Card)
      requires cards != []
      modifies this
      ensures [c] + cards == old(cards)
    {
      c := cards[0];
      cards := cards[1..];
    }
  }

  // ---- How long a hand can get ----

  function Count(hand: seq<Card>, r: Rank): nat {
    if hand == [] then 0 else Count(hand[..|hand| - 1], r) + if hand[|hand| - 1].rank == r then 1 else 0
  }

  function SuitsOf(hand: seq<Card>, r: Rank): set<Suit> {
    if hand == [] then {}
    else SuitsOf(hand[..|hand| - 1], r) + if hand[|hand| - 1].rank == r then {hand[|hand| - 1].suit} else {}
  }

  lemma {:induction false} SuitsOfCards(hand: seq<Card>, r: Rank, suit: Suit)
    ensures suit in SuitsOf(hand, r) <==> Card(r, suit) in hand
  {
    if hand != [] {
      var n := |hand| - 1;
      SuitsOfCards(hand[..n], r, suit);
      assert hand == hand[..n] + [hand[n]];
    }
  }

  lemma {:induction false} CountIsSuits(hand: seq<Card>, r: Rank)
    requires Distinct(hand)
    ensures Count(hand, r) == |SuitsOf(hand, r)|
  {
    if hand != [] {
      var n := |hand| - 1;
      CountIsSuits(hand[..n], r);
      SuitsOfCards(hand[..n], r, hand[n].suit);
    }
  }

  lemma SubsetSize<T>(a: set<T>, b: set<T>)
    requires a <= b
    ensures |a| <= |b|
  {
    assert b == a + (b - a);
  }

  /** There are only four cards of a rank. */
  lemma AtMostFour(hand: seq<Card>, r: Rank)
    requires Distinct(hand)
    ensures Count(hand, r) <= 4
  {
    CountIsSuits(hand, r);
    var all := {Spades, Hearts, Diamonds, Clubs};
    forall s: Suit ensures s in all {
      match s case Spades => case Hearts => case Diamonds => case Clubs =>
    }
    SubsetSize(SuitsOf(hand, r), all);
  }

  lemma {:induction false} LowTotalBound(hand: seq<Card>)
    requires forall c | c in hand :: Playable(c)
    ensures Aces(hand) == Count(hand, Ace)
    ensures HighTotal(hand) - 10 * Aces(hand) >= 3 * |hand| - 2 * Count(hand, Ace) - Count(hand, Pip(2))
  {
    if hand != [] {
      LowTotalBound(hand[..|hand| - 1]);
      assert Playable(hand[|hand| - 1]);
    }
  }

  /** With one deck, every card beyond the aces and twos adds at least three. */
  lemma HandTotalBound(hand: seq<Card>)
    requires Distinct(hand) && forall c | c in hand :: Playable(c)
    ensures HandTotal(hand) >= 3 * |hand| - 12
  {
    var low := ReduceStops(HighTotal(hand), Aces(hand));
    LowTotalBound(hand);
    AtMostFour(hand, Ace);
    AtMostFour(hand, Pip(2));
  }

  /** One more card takes a total of at most 21 up by ten at most, or leaves it at 21 or less. */
  lemma OneMoreCard(hand: seq<Card>, c: Card)
    requires Playable(c) && HandTotal(hand) <= 21
    ensures HandTotal(hand + [c]) <= 21 || HandTotal(hand + [c]) <= HandTotal(hand) + 10
  {
    HandTotalIsBest(hand);
    HandTotalIsBest(hand + [c]);
    var points :| Choice(hand, points) && Sum(points) == HandTotal(hand);
    var more := points + [if c.rank.Ace? then 1 else HighPoints(c)];
    assert more[..|hand|] == points;
    assert Sum(more) <= HandTotal(hand) + 10;
    assert Choice(hand + [c], more);
    assert Achievable(hand + [c], Sum(more));
  }

  lemma TwoCards(a: Card, b: Card)
    requires Playable(a) && Playable(b)
    ensures HandTotal([a, b]) <= 21
  {
    var hand := [a, b];
    OneCard(a);
    assert hand[..|hand| - 1] == [a];
    var low := ReduceStops(HighTotal(hand), Aces(hand));
  }

  lemma OneCard(a: Card)
    ensures HighTotal([a]) == HighPoints(a) && Aces([a]) == if a.rank.Ace? then 1 else 0
  {
    var hand := [a];
    assert hand[..|hand| - 1] == [];
  }

  // ---- A hand of the game ----

  datatype Winner = Player | House | Push

  function Outcome(playerTotal: int, houseTotal: int): Winner {
    if playerTotal > 21 then House
    else if houseTotal > 21 then Player
    else if playerTotal > houseTotal then Player
    else if houseTotal > playerTotal then House
    else Push
  }

  /** A hand beats another if it is not bust and the other is bust or lower; a player who busts loses in any case. */
  predicate Beats(total: int, other: int) {
    total <= 21 && (other > 21 || total > other)
  }

  lemma OutcomeIsFair(playerTotal: int, houseTotal: int)
    ensures Outcome(playerTotal, houseTotal) == Player <==> Beats(playerTotal, houseTotal)
    ensures Outcome(playerTotal, houseTotal) == House <==> Beats(houseTotal, playerTotal) || playerTotal > 21
    ensures Outcome(playerTotal, houseTotal) == Push <==> playerTotal == houseTotal <= 21
  {}

  /** The player's cards after `hits` more, and the house's after `pulls` more, from a given deck. */
  function PlayerCards(start: seq<Card>, hits: nat): seq<Card>
    requires 4 + hits <= |start|
  {
    start[..2] + start[4..4 + hits]
  }

  function HouseCards(start: seq<Card>, hits: nat, pulls: nat): seq<Card>
    requires 4 + hits + pulls <= |start|
  {
    start[2..4] + start[4 + hits..4 + hits + pulls]
  }

  /** A deck in some order. */
  ghost predicate Shuffled(start: seq<Card>) {
    multiset(start) == multiset(FullDeck())
  }

  lemma ShuffledDeck(start: seq<Card>)
    requires Shuffled(start)
    ensures |start| == 52 && Distinct(start) && forall c | c in start :: Playable(c)
  {
    FullDeckDistinct();
    DistinctCounts(FullDeck());
    DistinctCounts(start);
    assert |multiset(start)| == |multiset(FullDeck())|;
    forall c | c in start ensures Playable(c) {
      assert c in multiset(FullDeck());
    }
  }

  /** The hands hold different cards of the deck, so their totals bound their sizes. */
  lemma HandsBounded(start: seq<Card>, hits: nat, pulls: nat)
    requires Shuffled(start) && 4 + hits + pulls <= |start|
    ensures HandTotal(PlayerCards(start, hits)) >= 3 * (2 + hits) - 12
    ensures HandTotal(HouseCards(start, hits, pulls)) >= 3 * (2 + pulls) - 12
  {
    ShuffledDeck(start);
    HandTotalBound(PlayerCards(start, hits));
    HandTotalBound(HouseCards(start, hits, pulls));
  }

  lemma Draws(start: seq<Card>, hits: nat, pulls: nat)
    requires 4 + hits + pulls < |start|
    ensures pulls == 0 ==> PlayerCards(start, hits + 1) == PlayerCards(start, hits) + [start[4 + hits]]
    ensures HouseCards(start, hits, pulls + 1) == HouseCards(start, hits, pulls) + [start[4 + hits + pulls]]
    ensures start[4 + hits + pulls..] == [start[4 + hits + pulls]] + start[5 + hits + pulls..]
  {
    assert start[4..4 + hits + 1] == start[4..4 + hits] + [start[4 + hits]];
    assert start[4 + hits..4 + hits + pulls + 1] == start[4 + hits..4 + hits + pulls] + [start[4 + hits + pulls]];
  }

  lemma TailSplits(s: seq<Card>, i: nat, j: nat)
    requires i <= j <= |s|
    ensures multiset(s[i..]) == multiset(s[i..j]) + multiset(s[j..])
  {
    assert s[i..] == s[i..j] + s[j..];
  }

  lemma HandsCount(start: seq<Card>, hits: nat, pulls: nat)
    requires 4 + hits + pulls <= |start|
    ensures multiset(PlayerCards(start, hits)) == multiset(start[0..2]) + multiset(start[4..4 + hits])
    ensures multiset(HouseCards(start, hits, pulls)) == multiset(start[2..4]) + multiset(start[4 + hits..4 + hits + pulls])
  {
    assert start[0..2] == start[..2];
  }

  lemma Regroup(a: multiset<Card>, b: multiset<Card>, c: multiset<Card>, d: multiset<Card>, e: multiset<Card>)
    ensures (a + c) + (b + d) + e == a + (b + (c + (d + e)))
  {}

  /** No card is lost or duplicated. */
  lemma Conservation(start: seq<Card>, hits: nat, pulls: nat)
    requires 4 + hits + pulls <= |start|
    ensures multiset(PlayerCards(start, hits)) + multiset(HouseCards(start, hits, pulls)) + multiset(start[4 + hits + pulls..])
         == multiset(start)
  {
    hide PlayerCards, HouseCards;
    HandsCount(start, hits, pulls);
    var h, p := 4 + hits, 4 + hits + pulls;
    TailSplits(start, 0, 2);
    TailSplits(start, 2, 4);
    TailSplits(start, 4, h);
    TailSplits(start, h, p);
    Regroup(multiset(start[0..2]), multiset(start[2..4]), multiset(start[4..h]), multiset(start[h..p]), multiset(start[p..]));
    assert start[0..] == start;
  }

  /** The player asks for a card; running out of answers is end of input, which stands. */
  predicate WantsHit(choices: seq<bool>, n: nat) {
    n < |choices| && choices[n]
  }

  /** The player drew `hits` cards: below 21 and asking each time, and then no longer both. */
  ghost predicate PlayerStops(start: seq<Card>, choices: seq<bool>, hits: nat)
    requires 4 + hits <= |start|
  {
    && (forall m | 0 <= m < hits :: HandTotal(PlayerCards(start, m)) < 21 && WantsHit(choices, m))
    && (HandTotal(PlayerCards(start, hits)) >= 21 || !WantsHit(choices, hits))
  }

  /** The house drew `pulls` cards: none if the player is bust, otherwise as long as it was below 17. */
  ghost predicate HouseStops(start: seq<Card>, hits: nat, pulls: nat)
    requires 4 + hits + pulls <= |start|
  {
    if HandTotal(PlayerCards(start, hits)) > 21 then pulls == 0
    else
      && (forall m | 0 <= m < pulls :: HandTotal(HouseCards(start, hits, m)) < 17)
      && HandTotal(HouseCards(start, hits, pulls)) >= 17
  }

  method PlayerTurn(deck: Deck, ghost start: seq<Card>, dealt: seq<Card>, choices: seq<bool>)
    returns (player: seq<Card>, hits: nat)
    requires Shuffled(start) && |start| == 52 && deck.cards == start[4..] && dealt == PlayerCards(start, 0)
    modifies deck
    ensures hits <= 9 && deck.cards == start[4 + hits..]
    ensures player == PlayerCards(start, hits) && PlayerStops(start, choices, hits)
  {
    hide Shuffled, HandTotal, PlayerCards, HouseCards;
    player, hits := dealt, 0;
    while true
      invariant hits <= 9 && hits <= |choices| && deck.cards == start[4 + hits..]
      invariant player == PlayerCards(start, hits)
      invariant forall m | 0 <= m < hits :: HandTotal(PlayerCards(start, m)) < 21 && WantsHit(choices, m)
      decreases |choices| - hits
    {
      var total := HandValue(player);
      if total >= 21 {
        break;
      }
      if !WantsHit(choices, hits) {
        break;
      }
      HandsBounded(start, hits, 0);
      Draws(start, hits, 0);
      var c := deck.Draw();
      player := player + [c];
      hits := hits + 1;
    }
  }

  method HouseTurn(deck: Deck, ghost start: seq<Card>, ghost hits: nat, dealt: seq<Card>, player: seq<Card>)
    returns (house: seq<Card>, pulls: nat)
    requires Shuffled(start) && |start| == 52 && hits <= 9 && deck.cards == start[4 + hits..]
    requires player == PlayerCards(start, hits) && dealt == HouseCards(start, hits, 0)
    requires HandTotal(dealt) <= 21 && forall c | c in start :: Playable(c)
    modifies deck
    ensures pulls <= 8 && deck.cards == start[4 + hits + pulls..]
    ensures house == HouseCards(start, hits, pulls) && HouseStops(start, hits, pulls)
    ensures HandTotal(house) <= if HandTotal(player) > 21 then 21 else 26
  {
    hide Shuffled, HandTotal, PlayerCards, HouseCards, Playable;
    house, pulls := dealt, 0;
    while true
      invariant pulls <= 8 && deck.cards == start[4 + hits + pulls..]
      invariant house == HouseCards(start, hits, pulls) && HandTotal(house) <= 26
      invariant if HandTotal(player) > 21 then pulls == 0
                else forall m | 0 <= m < pulls :: HandTotal(HouseCards(start, hits, m)) < 17
      decreases 52 - pulls
    {
      var playerTotal := HandValue(player);
      var houseTotal := HandValue(house);
      if !(playerTotal <= 21 && houseTotal < 17) {
        break;
      }
      HandsBounded(start, hits, pulls);
      Draws(start, hits, pulls);
      OneMoreCard(house, start[4 + hits + pulls]);
      var c := deck.Draw();
      house := house + [c];
      pulls := pulls + 1;
    }
  }

  lemma Dealt(start: seq<Card>)
    requires |start| >= 4
    ensures PlayerCards(start, 0) == [start[0], start[1]]
    ensures forall hits: nat | 4 + hits <= |start| :: HouseCards(start, hits, 0) == [start[2], start[3]]
    ensures start == [start[0]] + ([start[1]] + ([start[2]] + ([start[3]] + start[4..])))
  {}

  lemma HandSizes(start: seq<Card>, hits: nat, pulls: nat)
    requires 4 + hits + pulls <= |start|
    ensures |PlayerCards(start, hits)| == 2 + hits && |HouseCards(start, hits, pulls)| == 2 + pulls
  {}

  lemma HouseStands(start: seq<Card>, hits: nat, pulls: nat)
    requires 4 + hits + pulls <= |start| && HouseStops(start, hits, pulls)
    ensures HandTotal(PlayerCards(start, hits)) <= 21 ==> HandTotal(HouseCards(start, hits, pulls)) >= 17
  {}

  /**
   One hand, for any order of the deck and any answers of the player. The deck never runs
   out: the player ends with at most 11 cards, the house with at most 10, no card is lost or
   duplicated, and a house that had to play ends between 17 and 26.
   */
  method PlayHand(start: seq<Card>, choices: seq<bool>)
    returns (player: seq<Card>, house: seq<Card>, rest: seq<Card>, winner: Winner, hits: nat, pulls: nat)
    requires Shuffled(start)
    ensures multiset(player) + multiset(house) + multiset(rest) == multiset(FullDeck())
    ensures |player| == 2 + hits <= 11 && |house| == 2 + pulls <= 10
    ensures HandTotal(player) <= 21 ==> 17 <= HandTotal(house) <= 26
    ensures winner == Player <==> Beats(HandTotal(player), HandTotal(house))
    ensures winner == House <==> Beats(HandTotal(house), HandTotal(player))
    ensures 4 + hits + pulls <= |start| && rest == start[4 + hits + pulls..]
    ensures player == PlayerCards(start, hits) && PlayerStops(start, choices, hits)
    ensures house == HouseCards(start, hits, pulls) && HouseStops(start, hits, pulls)
  {
    hide HandTotal, Playable, PlayerStops, HouseStops, PlayerCards, HouseCards, FullDeck, Outcome;
    ShuffledDeck(start);
    Dealt(start);
    var deck := new Deck(start);
    var first := deck.Draw();
    var second := deck.Draw();
    var third := deck.Draw();
    var fourth := deck.Draw();
    assert deck.cards == start[4..];
    player, hits := PlayerTurn(deck, start, [first, second], choices);
    TwoCards(third, fourth);
    house, pulls := HouseTurn(deck, start, hits, [third, fourth], player);
    rest := deck.cards;
    var playerTotal := HandValue(player);
    var houseTotal := HandValue(house);
    winner := Outcome(playerTotal, houseTotal);
    OutcomeIsFair(playerTotal, houseTotal);
    HandSizes(start, hits, pulls);
    HouseStands(start, hits, pulls);
    Conservation(start, hits, pulls);
  }

  // ---- The bounds are reached ----

  /** Some sequence holds exactly these cards. */
  lemma {:induction false} SomeOrder(cards: multiset<Card>) returns (s: seq<Card>)
    ensures multiset(s) == cards
  {
    if cards == multiset{} {
      s := [];
    } else {
      var c :| c in cards;
      var rest := SomeOrder(cards - multiset{c});
      s := rest + [c];
    }
  }

  lemma PlayableInDeck(c: Card)
    requires Playable(c)
    ensures c in FullDeck()
  {
    var r := match c.rank case Ace => 0 case Pip(n) => n - 1 case Jack => 10 case Queen => 11 case King => 12;
    var s := match c.suit case Spades => 0 case Hearts => 1 case Diamonds => 2 case Clubs => 3;
    assert RANKS[r] == c.rank && SUITS[s] == c.suit;
    assert (13 * s + r) % 13 == r && (13 * s + r) / 13 == s;
    assert FullDeck()[13 * s + r] == c;
  }

  /** Any different cards can lie on top of a shuffled deck. */
  lemma DeckStartingWith(front: seq<Card>) returns (start: seq<Card>)
    requires Distinct(front) && forall c | c in front :: Playable(c)
    ensures Shuffled(start) && front <= start
  {
    hide FullDeck;
    DistinctCounts(front);
    forall c ensures multiset(front)[c] <= multiset(FullDeck())[c] {
      if c in front {
        PlayableInDeck(c);
        assert multiset(FullDeck())[c] >= 1;
      }
    }
    var rest := SomeOrder(multiset(FullDeck()) - multiset(front));
    start := front + rest;
    assert multiset(front + rest) == multiset(front) + multiset(rest);
  }

  /** The answers and the order of the deck determine how many cards the player draws. */
  lemma PlayerStopsOnce(start: seq<Card>, choices: seq<bool>, m: nat, n: nat)
    requires 4 + m <= |start| && 4 + n <= |start|
    requires PlayerStops(start, choices, m) && PlayerStops(start, choices, n)
    ensures m == n
  {}

  lemma HouseStopsOnce(start: seq<Card>, hits: nat, m: nat, n: nat)
    requires 4 + hits + m <= |start| && 4 + hits + n <= |start|
    requires HouseStops(start, hits, m) && HouseStops(start, hits, n)
    ensures m == n
  {}

  lemma TotalsSnoc(hand: seq<Card>, c: Card)
    ensures HighTotal(hand + [c]) == HighTotal(hand) + HighPoints(c)
    ensures Aces(hand + [c]) == Aces(hand) + if c.rank.Ace? then 1 else 0
  {
    assert (hand + [c])[..|hand|] == hand;
  }

  /** The player's first eleven cards of a long game: four aces, four twos, three threes. */
  const LONG_HAND: seq<Card> := [
    Card(Ace, Spades), Card(Ace, Hearts), Card(Ace, Diamonds), Card(Ace, Clubs),
    Card(Pip(2), Spades), Card(Pip(2), Hearts), Card(Pip(2), Diamonds), Card(Pip(2), Clubs),
    Card(Pip(3), Spades), Card(Pip(3), Hearts), Card(Pip(3), Diamonds)]

  /** The house's first ten of another: no ace until the total is past ten. */
  const LONG_HOUSE: seq<Card> := [
    Card(Pip(2), Spades), Card(Pip(2), Hearts), Card(Pip(2), Diamonds), Card(Pip(2), Clubs), Card(Pip(3), Spades),
    Card(Ace, Spades), Card(Ace, Hearts), Card(Ace, Diamonds), Card(Ace, Clubs), Card(Pip(3), Hearts)]

  lemma {:induction false} LongHandPrefix(n: nat)
    requires n <= 11
    ensures HighTotal(LONG_HAND[..n]) == if n <= 4 then 11 * n else if n <= 8 then 36 + 2 * n else 28 + 3 * n
    ensures Aces(LONG_HAND[..n]) == if n <= 4 then n else 4
  {
    if n > 0 {
      LongHandPrefix(n - 1);
      assert LONG_HAND[..n] == LONG_HAND[..n - 1] + [LONG_HAND[n - 1]];
      TotalsSnoc(LONG_HAND[..n - 1], LONG_HAND[n - 1]);
    }
  }

  lemma LongHandTotal(n: nat)
    requires 2 <= n <= 10
    ensures HandTotal(LONG_HAND[..n]) < 21
  {
    LongHandPrefix(n);
    var low := ReduceStops(HighTotal(LONG_HAND[..n]), Aces(LONG_HAND[..n]));
  }

  lemma {:induction false} LongHousePrefix(n: nat)
    requires n <= 10
    ensures HighTotal(LONG_HOUSE[..n]) == if n <= 4 then 2 * n else if n <= 9 then 11 * n - 44 else 58
    ensures Aces(LONG_HOUSE[..n]) == if n <= 5 then 0 else if n <= 9 then n - 5 else 4
  {
    if n > 0 {
      LongHousePrefix(n - 1);
      assert LONG_HOUSE[..n] == LONG_HOUSE[..n - 1] + [LONG_HOUSE[n - 1]];
      TotalsSnoc(LONG_HOUSE[..n - 1], LONG_HOUSE[n - 1]);
    }
  }

  lemma LongHouseTotal(n: nat)
    requires 2 <= n <= 10
    ensures n < 10 ==> HandTotal(LONG_HOUSE[..n]) < 17
    ensures n == 10 ==> HandTotal(LONG_HOUSE[..n]) == 18
  {
    LongHousePrefix(n);
    var low := ReduceStops(HighTotal(LONG_HOUSE[..n]), Aces(LONG_HOUSE[..n]));
  }

  const KINGS: seq<Card> := [Card(King, Spades), Card(King, Hearts)]

  /** Some deck and answers make the player end with eleven cards, and in no other way. */
  lemma ElevenCardGame() returns (start: seq<Card>, choices: seq<bool>)
    ensures Shuffled(start) && |start| == 52
    ensures PlayerStops(start, choices, 9) && |PlayerCards(start, 9)| == 11
    ensures forall hits: nat :: 4 + hits <= |start| && PlayerStops(start, choices, hits) ==> hits == 9
  {
    hide FullDeck, HandTotal, PlayerStops;
    choices := [true, true, true, true, true, true, true, true, true];
    start := DeckStartingWith(LONG_HAND[..2] + KINGS + LONG_HAND[2..]);
    ShuffledDeck(start);
    LongPlayer(start, choices);
    forall hits: nat | 4 + hits <= |start| && PlayerStops(start, choices, hits) ensures hits == 9 {
      PlayerStopsOnce(start, choices, hits, 9);
    }
  }

  lemma LongPlayer(start: seq<Card>, choices: seq<bool>)
    requires LONG_HAND[..2] + KINGS + LONG_HAND[2..] <= start && choices == [true, true, true, true, true, true, true, true, true]
    ensures PlayerStops(start, choices, 9)
  {
    hide HandTotal;
    var front := LONG_HAND[..2] + KINGS + LONG_HAND[2..];
    forall m: nat | m <= 9 ensures PlayerCards(start, m) == LONG_HAND[..2 + m] {
      assert start[..2] == front[..2] && start[4..4 + m] == front[4..4 + m];
    }
    forall m: nat | m < 9 ensures HandTotal(PlayerCards(start, m)) < 21 {
      LongHandTotal(2 + m);
    }
  }

  /** Some deck makes the house end with ten cards against a player who stands. */
  lemma TenCardHouse() returns (start: seq<Card>)
    ensures Shuffled(start) && |start| == 52
    ensures PlayerStops(start, [], 0) && HouseStops(start, 0, 8) && |HouseCards(start, 0, 8)| == 10
    ensures forall hits: nat, pulls: nat ::
      4 + hits + pulls <= |start| && PlayerStops(start, [], hits) && HouseStops(start, hits, pulls) ==> hits == 0 && pulls == 8
  {
    hide FullDeck, HandTotal, PlayerStops, HouseStops;
    start := DeckStartingWith(KINGS + LONG_HOUSE);
    ShuffledDeck(start);
    LongHouse(start);
    forall hits: nat, pulls: nat | 4 + hits + pulls <= |start| && PlayerStops(start, [], hits) && HouseStops(start, hits, pulls)
      ensures hits == 0 && pulls == 8
    {
      PlayerStopsOnce(start, [], hits, 0);
      HouseStopsOnce(start, 0, pulls, 8);
    }
  }

  lemma LongHouse(start: seq<Card>)
    requires KINGS + LONG_HOUSE <= start
    ensures PlayerStops(start, [], 0) && HouseStops(start, 0, 8)
  {
    hide HandTotal;
    var front := KINGS + LONG_HOUSE;
    assert PlayerCards(start, 0) == KINGS by {
      assert start[..2] == front[..2] == KINGS;
    }
    TwoCards(KINGS[0], KINGS[1]);
    assert KINGS == [KINGS[0], KINGS[1]];
    forall m: nat | m <= 8 ensures HouseCards(start, 0, m) == LONG_HOUSE[..2 + m] {
      assert start[2..4] == front[2..4] && start[4..4 + m] == front[4..4 + m];
    }
    forall m: nat | m <= 8 ensures m < 8 ==> HandTotal(HouseCards(start, 0, m)) < 17
                           ensures m == 8 ==> HandTotal(HouseCards(start, 0, m)) == 18
    {
      LongHouseTotal(2 + m);
    }
  }
}
