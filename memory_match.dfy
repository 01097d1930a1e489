/** The Memory Match game: sixteen cards, two of each of eight symbols,
    shown face up for six seconds and then turned down; the player turns
    two at a time, a pair scores 5 points, and the game is judged when all
    eight pairs are found or the 45-second clock runs out.  Every deal is
    shuffled by a base Fisher-Yates pass followed by extra rounds whose
    number grows with the attempt number.  The random draws are a
    parameter: a sequence of numbers, each reduced into the range asked
    for, and 0 once the sequence is used up. */
module MemoryMatch {
  import opened Lifecycle
  import opened Optional

  const Pairs: nat := 8
  const DeckSize: nat := 16
  const TimeBudget: nat := 45
  const MemorySeconds: nat := 6
  const InitialMemorySeconds: nat := 10
  const WinSeconds: nat := 7
  const MaxExtraRounds: nat := 5

  /** A card; `image` numbers the eight symbols 0 to 7. */
  datatype Card = Card(id: int, image: nat, isFlipped: bool, isMatched: bool)

  /** The deck before shuffling: symbol `s` on the cards with ids `2s` and
      `2s + 1`, all face up, none matched. */
  function FreshDeck(): seq<Card>
  {
    seq(DeckSize, i requires 0 <= i => Card(i, i / 2, true, false))
  }

  /** The loop that lays out the eight pairs. */
  method BuildDeck() returns (deck: seq<Card>)
    ensures deck == FreshDeck()
    ensures |deck| == DeckSize
  {
    deck := [];
    var i := 0;
    while i < Pairs
      invariant 0 <= i <= Pairs
      invariant deck == FreshDeck()[..2 * i]
    {
      deck := deck + [Card(i * 2, i, true, false), Card(i * 2 + 1, i, true, false)];
      i := i + 1;
    }
  }

  /** How many cards of `d` carry symbol `s`. */
  function SymbolCount(d: seq<Card>, s: nat): nat
  {
    if |d| == 0 then 0
    else SymbolCount(d[..|d| - 1], s) + (if d[|d| - 1].image == s then 1 else 0)
  }

  lemma {:induction false} FreshPrefixSymbols(k: nat, s: nat)
    requires k <= Pairs
    ensures SymbolCount(FreshDeck()[..2 * k], s) == if s < k then 2 else 0
  {
    if k > 0 {
      FreshPrefixSymbols(k - 1, s);
      var d := FreshDeck();
      assert d[..2 * k][..2 * k - 1] == d[..2 * k - 1];
      assert d[..2 * k - 1][..2 * k - 2] == d[..2 * (k - 1)];
    }
  }

  /** The fresh deck holds each of the eight symbols exactly twice and no
      other symbol. */
  lemma FreshDeckSymbols(s: nat)
    ensures SymbolCount(FreshDeck(), s) == if s < Pairs then 2 else 0
  {
    FreshPrefixSymbols(Pairs, s);
    assert FreshDeck()[..2 * Pairs] == FreshDeck();
  }

  predicate DistinctIds(cards: seq<Card>)
  {
    forall i, j :: 0 <= i < j < |cards| ==> cards[i].id != cards[j].id
  }

  lemma RepeatedElementCount<T>(s: seq<T>, i: int, j: int)
    requires 0 <= i < j < |s| && s[i] == s[j]
    ensures multiset(s)[s[i]] >= 2
  {
    assert s == s[..j] + [s[j]] + s[j + 1..];
    assert s[i] in s[..j];
  }

  lemma {:induction false} DistinctElementCount<T>(s: seq<T>, x: T)
    requires forall i, j :: 0 <= i < j < |s| ==> s[i] != s[j]
    ensures multiset(s)[x] <= 1
  {
    if |s| > 0 {
      assert s == [s[0]] + s[1..];
      DistinctElementCount(s[1..], x);
      if x == s[0] {
        assert x !in s[1..];
      }
    }
  }

  /** Every card of an arrangement of the fresh deck is a card of the
      fresh deck: its symbol is half its id. */
  lemma DealtCardsFresh(cards: seq<Card>)
    requires multiset(cards) == multiset(FreshDeck())
    ensures |cards| == DeckSize
    ensures forall i :: 0 <= i < |cards| ==>
              0 <= cards[i].id < DeckSize && cards[i] == Card(cards[i].id, cards[i].id / 2, true, false)
  {
    var d := FreshDeck();
    assert |cards| == |multiset(cards)| == |multiset(d)| == DeckSize;
    forall i | 0 <= i < |cards|
      ensures 0 <= cards[i].id < DeckSize && cards[i] == Card(cards[i].id, cards[i].id / 2, true, false)
    {
      assert cards[i] in multiset(cards);
      assert cards[i] in d;
    }
  }

  /** Any arrangement of the fresh deck has distinct ids. */
  lemma DealtIdsDistinct(cards: seq<Card>)
    requires multiset(cards) == multiset(FreshDeck())
    ensures DistinctIds(cards)
  {
    DealtCardsFresh(cards);
    forall i, j | 0 <= i < j < |cards|
      ensures cards[i].id != cards[j].id
    {
      if cards[i].id == cards[j].id {
        RepeatedElementCount(cards, i, j);
        DistinctElementCount(FreshDeck(), cards[i]);
        assert false;
      }
    }
  }

  /** Some other card of the deal carries the symbol of `cards[i]`. */
  predicate HasPartner(cards: seq<Card>, i: int)
    requires 0 <= i < |cards|
  {
    exists j :: 0 <= j < |cards| && j != i && cards[j].image == cards[i].image
  }

  /** In any arrangement of the fresh deck every card has a partner
      elsewhere in the deal with the same symbol, one of the eight. */
  lemma DealtDeck(cards: seq<Card>)
    requires multiset(cards) == multiset(FreshDeck())
    ensures |cards| == DeckSize
    ensures DistinctIds(cards)
    ensures forall i :: 0 <= i < |cards| ==> cards[i].image < Pairs
    ensures forall i :: 0 <= i < |cards| ==> HasPartner(cards, i)
  {
    DealtCardsFresh(cards);
    DealtIdsDistinct(cards);
    forall i | 0 <= i < |cards|
      ensures HasPartner(cards, i)
    {
      var j := Partner(cards, i);
      assert 0 <= j < |cards| && j != i && cards[j].image == cards[i].image;
    }
    forall i | 0 <= i < |cards|
      ensures cards[i].image < Pairs
    {
      assert cards[i].image == cards[i].id / 2;
    }
  }

  /** The position of the other card of `cards[i]`'s pair. */
  lemma Partner(cards: seq<Card>, i: int) returns (j: int)
    requires multiset(cards) == multiset(FreshDeck())
    requires 0 <= i < |cards|
    ensures 0 <= j < |cards| && j != i && cards[j].image == cards[i].image
  {
    DealtCardsFresh(cards);
    var c := cards[i];
    var mate := if c.id % 2 == 0 then c.id + 1 else c.id - 1;
    var m := Card(mate, mate / 2, true, false);
    assert m == FreshDeck()[mate];
    assert m in multiset(FreshDeck());
    assert m in cards;
    j :| 0 <= j < |cards| && cards[j] == m;
  }

  /** The dealt cards: an arrangement of the fresh deck. */
  predicate IsDeal(cards: seq<Card>)
  {
    multiset(cards) == multiset(FreshDeck())
  }

  /** One of the shuffle's passes over the deck. */
  datatype Pass =
    | BaseShuffle
    | ReverseSegments(segmentSize: nat)
    | SwapPairs(interval: nat)
    | RotateSections
    | RandomSwaps(swapCount: nat)

  /** The number of extra rounds after the base shuffle: one per attempt
      after the first, at most five. */
  function ExtraRounds(attemptNumber: int): (r: nat)
    ensures r <= MaxExtraRounds
    ensures attemptNumber <= 1 ==> r == 0
    ensures 1 <= attemptNumber <= MaxExtraRounds + 1 ==> r == attemptNumber - 1
  {
    if attemptNumber - 1 < 0 then 0
    else if attemptNumber - 1 < MaxExtraRounds then attemptNumber - 1
    else MaxExtraRounds
  }

  /** The passes of extra round `round` (counted from 0). */
  function RoundPasses(round: nat): seq<Pass>
  {
    [ReverseSegments(4 + round * 2), SwapPairs(2 + round)]
    + (if round >= 2 then [RotateSections] else [])
    + (if round >= 3 then [RandomSwaps(8 + round * 2)] else [])
  }

  /** The passes of the first `rounds` extra rounds, in order. */
  function RoundsPlan(rounds: nat): seq<Pass>
  {
    if rounds == 0 then [] else RoundsPlan(rounds - 1) + RoundPasses(rounds - 1)
  }

  /** Every pass the shuffle makes for attempt `attemptNumber`. */
  function PassPlan(attemptNumber: int): seq<Pass>
  {
    [BaseShuffle] + RoundsPlan(ExtraRounds(attemptNumber))
  }

  function CountPass(plan: seq<Pass>, p: Pass): nat
  {
    if |plan| == 0 then 0 else CountPass(plan[..|plan| - 1], p) + (if plan[|plan| - 1] == p then 1 else 0)
  }

  lemma {:induction false} CountPassAppend(a: seq<Pass>, b: seq<Pass>, p: Pass)
    ensures CountPass(a + b, p) == CountPass(a, p) + CountPass(b, p)
    decreases |b|
  {
    if |b| > 0 {
      assert (a + b)[..|a + b| - 1] == a + b[..|b| - 1];
      CountPassAppend(a, b[..|b| - 1], p);
    } else {
      assert a + b == a;
    }
  }

  lemma {:induction false} RoundsPlanCounts(rounds: nat)
    ensures |RoundsPlan(rounds)| >= 2 * rounds
    ensures CountPass(RoundsPlan(rounds), RotateSections) == if rounds >= 2 then rounds - 2 else 0
    ensures CountPass(RoundsPlan(rounds), BaseShuffle) == 0
  {
    if rounds > 0 {
      var r := rounds - 1;
      assert RoundsPlan(rounds) == RoundsPlan(r) + RoundPasses(r);
      RoundsPlanCounts(r);
      CountPassAppend(RoundsPlan(r), RoundPasses(r), RotateSections);
      CountPassAppend(RoundsPlan(r), RoundPasses(r), BaseShuffle);
      RoundPassesCounts(r);
    }
  }

  /** Each extra round makes at least two passes, rotates sections once
      from the third round on, and never repeats the base shuffle. */
  lemma RoundPassesCounts(r: nat)
    ensures |RoundPasses(r)| >= 2
    ensures CountPass(RoundPasses(r), RotateSections) == if r >= 2 then 1 else 0
    ensures CountPass(RoundPasses(r), BaseShuffle) == 0
  {
    var two := [ReverseSegments(4 + r * 2), SwapPairs(2 + r)];
    var rot: seq<Pass> := if r >= 2 then [RotateSections] else [];
    var rnd: seq<Pass> := if r >= 3 then [RandomSwaps(8 + r * 2)] else [];
    assert RoundPasses(r) == two + rot + rnd;
    CountPassAppend(two + rot, rnd, RotateSections);
    CountPassAppend(two, rot, RotateSections);
    CountPassAppend(two + rot, rnd, BaseShuffle);
    CountPassAppend(two, rot, BaseShuffle);
    assert two == [ReverseSegments(4 + r * 2)] + [SwapPairs(2 + r)];
    CountPassAppend([ReverseSegments(4 + r * 2)], [SwapPairs(2 + r)], RotateSections);
    CountPassAppend([ReverseSegments(4 + r * 2)], [SwapPairs(2 + r)], BaseShuffle);
  }

  /** The shuffle makes its base pass once, then two or more passes per
      extra round, and rotates sections only from the third extra round
      on: once in each round from there. */
  lemma PassPlanShape(attemptNumber: int)
    ensures PassPlan(attemptNumber)[0] == BaseShuffle
    ensures CountPass(PassPlan(attemptNumber), BaseShuffle) == 1
    ensures |PassPlan(attemptNumber)| >= 1 + 2 * ExtraRounds(attemptNumber)
    ensures CountPass(PassPlan(attemptNumber), RotateSections)
            == if ExtraRounds(attemptNumber) >= 2 then ExtraRounds(attemptNumber) - 2 else 0
  {
    var n := ExtraRounds(attemptNumber);
    RoundsPlanCounts(n);
    CountPassAppend([BaseShuffle], RoundsPlan(n), BaseShuffle);
    CountPassAppend([BaseShuffle], RoundsPlan(n), RotateSections);
  }

  /** The first attempt is the plain base shuffle; the third adds one
      round of segment reversal and pair swapping for each attempt after
      the first; from the sixth attempt on the plan no longer grows. */
  lemma AttemptPlans(attemptNumber: int)
    ensures PassPlan(1) == [BaseShuffle]
    ensures PassPlan(3) == [BaseShuffle, ReverseSegments(4), SwapPairs(2), ReverseSegments(6), SwapPairs(3)]
    ensures attemptNumber >= 6 ==> PassPlan(attemptNumber) == PassPlan(6)
  {
    assert RoundsPlan(2) == RoundsPlan(1) + RoundPasses(1);
  }

  /** The next random draw reduced to `0 .. bound - 1`. */
  function Draw(rand: seq<nat>, k: nat, bound: nat): (r: nat)
    requires bound > 0
    ensures r < bound
  {
    if k < |rand| then rand[k] % bound else 0
  }

  /** Exchanges two cards. */
  method SwapAt(a: array<Card>, i: int, j: int)
    requires 0 <= i < a.Length && 0 <= j < a.Length
    modifies a
    ensures a[i] == old(a[j]) && a[j] == old(a[i])
    ensures forall k :: 0 <= k < a.Length && k != i && k != j ==> a[k] == old(a[k])
    ensures multiset(a[..]) == multiset(old(a[..]))
  {
    a[i], a[j] := a[j], a[i];
  }

  /** Reverses the cards at `lo .. hi - 1` and leaves the rest alone. */
  method ReverseRange(a: array<Card>, lo: int, hi: int)
    requires 0 <= lo <= hi <= a.Length
    modifies a
    ensures forall k :: lo <= k < hi ==> a[k] == old(a[lo + hi - 1 - k])
    ensures forall k :: 0 <= k < a.Length && !(lo <= k < hi) ==> a[k] == old(a[k])
    ensures multiset(a[..]) == multiset(old(a[..]))
  {
    var i, j := lo, hi - 1;
    while i < j
      invariant lo <= i <= j + 1 <= hi && i + j == lo + hi - 1
      invariant forall k :: lo <= k < i ==> a[k] == old(a[lo + hi - 1 - k])
      invariant forall k :: j < k < hi ==> a[k] == old(a[lo + hi - 1 - k])
      invariant forall k :: i <= k <= j ==> a[k] == old(a[k])
      invariant forall k :: 0 <= k < a.Length && !(lo <= k < hi) ==> a[k] == old(a[k])
      invariant multiset(a[..]) == multiset(old(a[..]))
    {
      SwapAt(a, i, j);
      i, j := i + 1, j - 1;
    }
  }

  /** Moves the first card of `lo .. hi - 1` to its end, the others one
      place forward. */
  method RotateRange(a: array<Card>, lo: int, hi: int)
    requires 0 <= lo < hi <= a.Length
    modifies a
    ensures forall k :: lo <= k < hi - 1 ==> a[k] == old(a[k + 1])
    ensures a[hi - 1] == old(a[lo])
    ensures forall k :: 0 <= k < a.Length && !(lo <= k < hi) ==> a[k] == old(a[k])
    ensures multiset(a[..]) == multiset(old(a[..]))
  {
    var k := lo;
    while k < hi - 1
      invariant lo <= k <= hi - 1
      invariant forall m :: lo <= m < k ==> a[m] == old(a[m + 1])
      invariant a[k] == old(a[lo])
      invariant forall m :: k < m < a.Length ==> a[m] == old(a[m])
      invariant forall m :: 0 <= m < lo ==> a[m] == old(a[m])
      invariant multiset(a[..]) == multiset(old(a[..]))
    {
      SwapAt(a, k, k + 1);
      k := k + 1;
    }
  }

  /** The base shuffle: a Fisher-Yates pass from the last card down,
      each card swapped with one drawn from the positions up to its own.
      Returns the draws consumed. */
  method FisherYatesPass(a: array<Card>, rand: seq<nat>) returns (k: nat, done: Pass)
    modifies a
    ensures multiset(a[..]) == multiset(old(a[..]))
    ensures done == BaseShuffle
  {
    k := 0;
    var i := a.Length - 1;
    while i > 0
      invariant multiset(a[..]) == multiset(old(a[..]))
    {
      var j := Draw(rand, k, i + 1);
      k := k + 1;
      SwapAt(a, i, j);
      i := i - 1;
    }
    done := BaseShuffle;
  }

  /** Pattern 1 of a round: reverse consecutive segments of
      `segmentSize` cards, the last one possibly shorter. */
  method ReverseSegmentsPass(a: array<Card>, segmentSize: nat) returns (done: Pass)
    requires segmentSize > 0
    modifies a
    ensures multiset(a[..]) == multiset(old(a[..]))
    ensures done == ReverseSegments(segmentSize)
  {
    var i := 0;
    while i < a.Length
      invariant multiset(a[..]) == multiset(old(a[..]))
      decreases a.Length - i
    {
      var hi := if i + segmentSize < a.Length then i + segmentSize else a.Length;
      ReverseRange(a, i, hi);
      i := i + segmentSize;
    }
    done := ReverseSegments(segmentSize);
  }

  /** Pattern 2 of a round: swap the card at `i` with the one `interval`
      places on, for `i` = 0, 2·interval, 4·interval, ... */
  method SwapPairsPass(a: array<Card>, interval: nat) returns (done: Pass)
    requires interval > 0
    modifies a
    ensures multiset(a[..]) == multiset(old(a[..]))
    ensures done == SwapPairs(interval)
  {
    var i := 0;
    while i < a.Length - interval
      invariant i >= 0
      invariant multiset(a[..]) == multiset(old(a[..]))
      decreases a.Length - i
    {
      if i + interval < a.Length {
        SwapAt(a, i, i + interval);
      }
      i := i + interval * 2;
    }
    done := SwapPairs(interval);
  }

  /** Pattern 3 of a round: rotate each section of six cards (the last
      one possibly shorter) by one place, unless it has fewer than three
      cards. */
  method RotateSectionsPass(a: array<Card>) returns (done: Pass)
    modifies a
    ensures multiset(a[..]) == multiset(old(a[..]))
    ensures done == RotateSections
  {
    var i := 0;
    while i < a.Length
      invariant multiset(a[..]) == multiset(old(a[..]))
      decreases a.Length - i
    {
      var hi := if i + 6 < a.Length then i + 6 else a.Length;
      if hi - i >= 3 {
        RotateRange(a, i, hi);
      }
      i := i + 6;
    }
    done := RotateSections;
  }

  /** Pattern 4 of a round: `swapCount` random swaps.  For each, a first
      position is drawn, and the second is redrawn while it lies within a
      quarter of the deck of the first, except on the last two swaps.  The
      redrawing also stops when the draws run out.  Returns the draws
      consumed so far. */
  method RandomSwapsPass(a: array<Card>, swapCount: nat, rand: seq<nat>, k0: nat) returns (k: nat, done: Pass)
    requires a.Length > 0
    modifies a
    ensures multiset(a[..]) == multiset(old(a[..]))
    ensures k >= k0
    ensures done == RandomSwaps(swapCount)
  {
    k := k0;
    var swap := 0;
    while swap < swapCount
      invariant k >= k0
      invariant multiset(a[..]) == multiset(old(a[..]))
    {
      var i := Draw(rand, k, a.Length);
      k := k + 1;
      var minDistance := a.Length / 4;
      var j := Draw(rand, k, a.Length);
      k := k + 1;
      while (if i >= j then i - j else j - i) < minDistance && swap < swapCount - 2 && k < |rand|
        invariant k >= k0 && 0 <= j < a.Length
        decreases |rand| - k
      {
        j := Draw(rand, k, a.Length);
        k := k + 1;
      }
      SwapAt(a, i, j);
      swap := swap + 1;
    }
    done := RandomSwaps(swapCount);
  }

  /** Extra round `round` (counted from 0): patterns 1 and 2, pattern 3
      from the third round on and pattern 4 from the fourth.  Returns the
      draws consumed so far and the passes run. */
  method ExtraRound(a: array<Card>, round: nat, rand: seq<nat>, k0: nat) returns (k: nat, these: seq<Pass>)
    requires a.Length > 0
    modifies a
    ensures multiset(a[..]) == multiset(old(a[..]))
    ensures these == RoundPasses(round)
  {
    k := k0;
    var reversed := ReverseSegmentsPass(a, 4 + round * 2);
    var swapped := SwapPairsPass(a, 2 + round);
    these := [reversed, swapped];
    if round >= 2 {
      var rotated := RotateSectionsPass(a);
      these := these + [rotated];
    }
    if round >= 3 {
      var randomized;
      k, randomized := RandomSwapsPass(a, 8 + round * 2, rand, k);
      these := these + [randomized];
    }
  }

  /** The shuffle of a deal: a Fisher-Yates pass and then the extra
      rounds for `attemptNumber`.  It only rearranges the cards, and the
      passes it makes are exactly the plan for that attempt. */
  method EnhancedShuffle(cards: seq<Card>, attemptNumber: int, rand: seq<nat>)
    returns (shuffled: seq<Card>, passes: seq<Pass>)
    requires |cards| > 0
    ensures multiset(shuffled) == multiset(cards)
    ensures |shuffled| == |cards|
    ensures passes == PassPlan(attemptNumber)
  {
    var a := new Card[|cards|](i requires 0 <= i < |cards| => cards[i]);
    assert a[..] == cards;
    var k, base := FisherYatesPass(a, rand);
    var extraShuffles := ExtraRounds(attemptNumber);
    var rounds: seq<Pass> := [];
    var round := 0;
    while round < extraShuffles
      invariant 0 <= round <= extraShuffles
      invariant multiset(a[..]) == multiset(cards)
      invariant rounds == RoundsPlan(round)
    {
      var these;
      k, these := ExtraRound(a, round, rand, k);
      rounds := rounds + these;
      round := round + 1;
    }
    passes := [base] + rounds;
    shuffled := a[..];
  }

  /** Where the card with id `id` lies: the first position holding it,
      or nothing when no card has that id. */
  function Find(cards: seq<Card>, id: int): (r: Option<nat>)
    ensures r.Some? ==> r.value < |cards| && cards[r.value].id == id
    ensures r.Some? ==> forall k :: 0 <= k < r.value ==> cards[k].id != id
    ensures r.None? <==> forall k :: 0 <= k < |cards| ==> cards[k].id != id
  {
    if |cards| == 0 then None
    else if cards[0].id == id then Some(0)
    else match Find(cards[1..], id)
      case None => None
      case Some(k) => Some(k + 1)
  }

  /** Two decks with the same ids position by position hold every id in
      the same place. */
  lemma FindSameIds(a: seq<Card>, b: seq<Card>, id: int)
    requires |a| == |b| && forall k :: 0 <= k < |a| ==> a[k].id == b[k].id
    ensures Find(a, id) == Find(b, id)
  {
    var ra, rb := Find(a, id), Find(b, id);
    if ra.Some? {
      assert b[ra.value].id == id;
    }
    if rb.Some? {
      assert a[rb.value].id == id;
    }
  }

  /** The card with id `id` is on the table, face up and unmatched. */
  predicate FaceUpUnmatched(cards: seq<Card>, id: int)
  {
    var r := Find(cards, id);
    r.Some? && cards[r.value].isFlipped && !cards[r.value].isMatched
  }

  /** The cards after the memory phase: all turned face down. */
  function FaceDown(cards: seq<Card>): seq<Card>
  {
    seq(|cards|, i requires 0 <= i < |cards| => cards[i].(isFlipped := false))
  }

  /** The judgement made when the game ends: at least 20 points or at
      least four pairs. */
  predicate CanContinue(points: int, matches: int)
  {
    points >= 20 || matches >= 4
  }

  /** With 5 points a pair, the two halves of the judgement coincide:
      a game passes exactly when it found four pairs, and finding all
      eight always passes. */
  lemma JudgementByPairs(matches: nat)
    ensures CanContinue(5 * matches, matches) <==> matches >= 4
    ensures matches == Pairs ==> CanContinue(5 * matches, matches)
  {
  }

  /** The state of one mounted Memory Match component.  `attempts` and
      `retryTimer` are written only by `ResetGame`, which the component
      never calls. */
  class Game {
    var intro: Intro
    var cards: seq<Card>
    var flippedCards: seq<int>
    var matches: nat
    var points: nat
    var gameStarted: bool
    var memoryTime: nat
    var gameCompleted: bool
    var timeRemaining: nat
    var showWinScreen: bool
    var winTimer: nat
    var memoryPhaseActive: bool
    var showRetryScreen: bool
    var attempts: int
    var retryTimer: nat
    var completed: bool       // onComplete has been called

    ghost predicate Valid()
      reads this
    {
      && points == 5 * matches
      && DistinctIds(cards)
      && |flippedCards| <= 2
      && (|flippedCards| == 2 ==> flippedCards[0] != flippedCards[1])
      && (forall k :: 0 <= k < |flippedCards| ==> FaceUpUnmatched(cards, flippedCards[k]))
      && (!gameStarted ==> flippedCards == [])
      && (memoryPhaseActive ==> !gameStarted)
      && memoryTime <= InitialMemorySeconds
      && timeRemaining <= TimeBudget
      && winTimer <= WinSeconds
      && retryTimer <= RetrySeconds
      && attempts >= 1
      && (memoryPhaseActive ==> !gameCompleted && !showWinScreen && !showRetryScreen && memoryTime > 0)
      && (showWinScreen || showRetryScreen ==> gameCompleted)
    }

    /** A game just dealt: a shuffled deck, nothing turned or matched, the
        memory phase running with both clocks full, and no screen but the
        board. */
    ghost predicate NewGame()
      reads this
    {
      && IsDeal(cards) && flippedCards == []
      && matches == 0 && points == 0 && !gameStarted && !gameCompleted
      && memoryTime == MemorySeconds && memoryPhaseActive
      && timeRemaining == TimeBudget && !showWinScreen && winTimer == WinSeconds
      && !showRetryScreen
    }

    /** Everything of the board and the win timer is as it was. */
    twostate predicate BoardKept()
      reads this
    {
      && cards == old(cards) && flippedCards == old(flippedCards)
      && matches == old(matches) && points == old(points)
      && gameStarted == old(gameStarted) && memoryTime == old(memoryTime)
      && winTimer == old(winTimer) && memoryPhaseActive == old(memoryPhaseActive)
    }

    /** The judgement at the time-out, on everything but the clock: a pass
        shows the win screen; a failure shows the retry screen with the
        win screen asked for as well, or deals again at once when the
        retry timer already reads 0.  Short of a new deal the board is
        kept. */
    twostate predicate TimedOut()
      reads this
    {
      var pass := CanContinue(old(points), old(matches));
      && (pass ==> gameCompleted && showWinScreen && !showRetryScreen && BoardKept())
      && (!pass && retryTimer > 0 ==> gameCompleted && showWinScreen && showRetryScreen && BoardKept())
      && (!pass && retryTimer == 0 ==> NewGame())
    }

    /** One second of the game clock while it runs: above 1 it counts
        down and nothing else changes; at 1 it reaches 0 and the time-out
        judges the game. */
    twostate predicate ClockSecond()
      reads this
    {
      && (old(timeRemaining) == 0 ==> unchanged(this))
      && (old(timeRemaining) > 1 ==>
            && timeRemaining == old(timeRemaining) - 1 && BoardKept()
            && gameCompleted == old(gameCompleted) && showWinScreen == old(showWinScreen)
            && showRetryScreen == old(showRetryScreen))
      && (old(timeRemaining) == 1 ==> TimedOut() && (gameCompleted ==> timeRemaining == 0))
    }

    constructor ()
      ensures Valid()
      ensures intro == Opening() && cards == [] && flippedCards == []
      ensures matches == 0 && points == 0 && !gameStarted && !gameCompleted
      ensures memoryTime == InitialMemorySeconds && !memoryPhaseActive
      ensures timeRemaining == TimeBudget && !showWinScreen && winTimer == WinSeconds
      ensures !showRetryScreen && attempts == 1 && retryTimer == RetrySeconds && !completed
    {
      intro := Opening();
      cards, flippedCards := [], [];
      matches, points := 0, 0;
      gameStarted, gameCompleted := false, false;
      memoryTime := InitialMemorySeconds;
      memoryPhaseActive := false;
      timeRemaining := TimeBudget;
      showWinScreen := false;
      winTimer := WinSeconds;
      showRetryScreen := false;
      attempts := 1;
      retryTimer := RetrySeconds;
      completed := false;
    }

    /** The screen rendered: rules, countdown, then the retry screen
        before the win screen, then the board. */
    function View(): (s: Screen)
      reads this
      ensures intro.Started? && showRetryScreen ==> s == RetryScreen
      ensures s == WinScreen <==> intro.Started? && showWinScreen && !showRetryScreen
      ensures s == PlayScreen <==> intro.Started? && !showWinScreen && !showRetryScreen
    {
      match intro
      case Rules(_) => RulesScreen
      case Countdown(_) => CountdownScreen
      case Started =>
        if showRetryScreen then RetryScreen
        else if showWinScreen then WinScreen
        else PlayScreen
    }

    /** Deals a new game: the fresh deck shuffled for the current attempt
        number, nothing turned or matched, the six-second memory phase
        running and a full clock. */
    method InitializeGame(rand: seq<nat>)
      requires Valid()
      modifies this`cards, this`flippedCards, this`matches, this`points, this`gameStarted,
               this`gameCompleted, this`memoryTime, this`timeRemaining, this`showWinScreen,
               this`winTimer, this`memoryPhaseActive, this`showRetryScreen
      ensures Valid() && NewGame()
    {
      var gameCards := BuildDeck();
      var shuffled, _ := EnhancedShuffle(gameCards, attempts, rand);
      DealtDeck(shuffled);
      cards, flippedCards := shuffled, [];
      StartMemoryPhase();
    }

    /** No pairs, no points, the memory phase and both clocks from the
        start, and no screen but the board. */
    method StartMemoryPhase()
      requires Valid() && flippedCards == []
      modifies this`matches, this`points, this`gameStarted, this`gameCompleted, this`memoryTime,
               this`timeRemaining, this`showWinScreen, this`winTimer, this`memoryPhaseActive,
               this`showRetryScreen
      ensures Valid()
      ensures matches == 0 && points == 0 && !gameStarted && !gameCompleted
      ensures memoryTime == MemorySeconds && memoryPhaseActive
      ensures timeRemaining == TimeBudget && !showWinScreen && winTimer == WinSeconds
      ensures !showRetryScreen
    {
      ClearOutcome();
      memoryTime, timeRemaining := MemorySeconds, TimeBudget;
      winTimer, memoryPhaseActive := WinSeconds, true;
    }

    /** No pairs, no points, play not started, nothing won or lost. */
    method ClearOutcome()
      requires Valid() && flippedCards == []
      modifies this`matches, this`points, this`gameStarted, this`gameCompleted, this`showWinScreen,
               this`showRetryScreen
      ensures Valid()
      ensures matches == 0 && points == 0 && !gameStarted && !gameCompleted
      ensures !showWinScreen && !showRetryScreen
    {
      matches, points := 0, 0;
      gameStarted, gameCompleted := false, false;
      showWinScreen, showRetryScreen := false, false;
    }

    /** Starts the next attempt with a harder shuffle.  The deal still
        uses the attempt number read before the increment.  Nothing in
        the component calls it. */
    method ResetGame(rand: seq<nat>)
      requires Valid()
      modifies this`attempts, this`retryTimer, this`cards, this`flippedCards, this`matches,
               this`points, this`gameStarted, this`gameCompleted, this`memoryTime,
               this`timeRemaining, this`showWinScreen, this`winTimer, this`memoryPhaseActive,
               this`showRetryScreen
      ensures Valid()
      ensures attempts == old(attempts) + 1 && retryTimer == RetrySeconds
      ensures IsDeal(cards) && flippedCards == [] && matches == 0 && memoryPhaseActive
    {
      InitializeGame(rand);
      attempts := attempts + 1;
      retryTimer := RetrySeconds;
    }

    /** A click on the card with id `cardId`.  It is ignored before play,
        with two cards already up, after the game is judged, and for a
        card that is missing, face up or matched; otherwise exactly that
        card turns face up and joins the turned cards. */
    method FlipCard(cardId: int)
      requires Valid()
      modifies this`cards, this`flippedCards
      ensures Valid()
      ensures var r := Find(old(cards), cardId);
              if !old(gameStarted) || |old(flippedCards)| >= 2 || old(gameCompleted)
                 || r.None? || old(cards)[r.value].isFlipped || old(cards)[r.value].isMatched
              then unchanged(this)
              else cards == old(cards)[r.value := old(cards)[r.value].(isFlipped := true)]
                   && flippedCards == old(flippedCards) + [cardId]
    {
      if !gameStarted || |flippedCards| >= 2 || gameCompleted {
        return;
      }
      var r := Find(cards, cardId);
      if r.None? || cards[r.value].isFlipped || cards[r.value].isMatched {
        return;
      }
      var cs := cards;
      var newCards := seq(|cs|, i requires 0 <= i < |cs| =>
                            if cs[i].id == cardId then cs[i].(isFlipped := true) else cs[i]);
      assert newCards == cs[r.value := cs[r.value].(isFlipped := true)];
      FindSameIds(cs, newCards, cardId);
      forall k | 0 <= k < |flippedCards|
        ensures FaceUpUnmatched(newCards, flippedCards[k])
      {
        FindSameIds(cs, newCards, flippedCards[k]);
      }
      cards := newCards;
      flippedCards := flippedCards + [cardId];
    }

    /** The judgement when the game ends: at least 20 points or four
        pairs brings the win screen, anything less the retry screen; a
        retry screen whose timer already reads 0 deals again at once.
        Both the time-out and the eighth pair judge during play. */
    method Evaluate(rand: seq<nat>)
      requires Valid() && gameStarted
      modifies this`cards, this`flippedCards, this`matches, this`points, this`gameStarted,
               this`gameCompleted, this`memoryTime, this`timeRemaining, this`showWinScreen,
               this`winTimer, this`memoryPhaseActive, this`showRetryScreen
      ensures Valid()
      ensures CanContinue(old(points), old(matches)) ==>
                gameCompleted && showWinScreen && !showRetryScreen
                && unchanged(this`cards, this`flippedCards, this`matches, this`points, this`gameStarted,
                             this`memoryTime, this`timeRemaining, this`winTimer, this`memoryPhaseActive)
      ensures !CanContinue(old(points), old(matches)) && retryTimer > 0 ==>
                gameCompleted && showRetryScreen
                && unchanged(this`cards, this`flippedCards, this`matches, this`points, this`gameStarted,
                             this`memoryTime, this`timeRemaining, this`showWinScreen, this`winTimer,
                             this`memoryPhaseActive)
      ensures !CanContinue(old(points), old(matches)) && retryTimer == 0 ==> NewGame()
    {
      gameCompleted := true;
      if CanContinue(points, matches) {
        showWinScreen := true;
        showRetryScreen := false;
      } else {
        showRetryScreen := true;
        if retryTimer == 0 {
          showRetryScreen := false;
          InitializeGame(rand);
        }
      }
    }

    /** The delayed resolution of two turned cards.  Equal symbols mark
        both matched and score a pair worth 5 points; different symbols
        turn both face down.  Either way the turned list empties, and the
        eighth pair brings the judgement if the game was not yet judged. */
    method ResolvePair(rand: seq<nat>)
      requires Valid() && |flippedCards| == 2
      modifies this`cards, this`flippedCards, this`matches, this`points, this`gameStarted,
               this`gameCompleted, this`memoryTime, this`timeRemaining, this`showWinScreen,
               this`winTimer, this`memoryPhaseActive, this`showRetryScreen
      ensures Valid()
      ensures var i1 := Find(old(cards), old(flippedCards)[0]).value;
              var i2 := Find(old(cards), old(flippedCards)[1]).value;
              var same := old(cards)[i1].image == old(cards)[i2].image;
              && (same ==>
                    && matches == old(matches) + 1
                    && cards == old(cards)[i1 := old(cards)[i1].(isMatched := true)]
                                          [i2 := old(cards)[i2].(isMatched := true)])
              && (!same ==>
                    && matches == old(matches)
                    && cards == old(cards)[i1 := old(cards)[i1].(isFlipped := false)]
                                          [i2 := old(cards)[i2].(isFlipped := false)])
              && (matches == Pairs && !old(gameCompleted) ==> gameCompleted && showWinScreen)
              && (matches != Pairs || old(gameCompleted) ==>
                    gameCompleted == old(gameCompleted) && showWinScreen == old(showWinScreen))
              && flippedCards == []
    {
      TurnPair();
      if matches == Pairs && !gameCompleted {
        JudgementByPairs(matches);
        Evaluate(rand);
      }
    }

    /** The immediate part of the comparison: the two face-up cards are
        matched (one more pair, 5 more points) when they share a symbol
        and turned face down otherwise; the turned list empties. */
    method TurnPair()
      requires Valid() && |flippedCards| == 2
      modifies this`cards, this`flippedCards, this`matches, this`points
      ensures Valid() && flippedCards == []
      ensures var i1 := Find(old(cards), old(flippedCards)[0]).value;
              var i2 := Find(old(cards), old(flippedCards)[1]).value;
              var same := old(cards)[i1].image == old(cards)[i2].image;
              && (same ==>
                    && matches == old(matches) + 1
                    && cards == old(cards)[i1 := old(cards)[i1].(isMatched := true)]
                                          [i2 := old(cards)[i2].(isMatched := true)])
              && (!same ==>
                    && matches == old(matches)
                    && cards == old(cards)[i1 := old(cards)[i1].(isFlipped := false)]
                                          [i2 := old(cards)[i2].(isFlipped := false)])
    {
      var first, second := flippedCards[0], flippedCards[1];
      assert FaceUpUnmatched(cards, first) && FaceUpUnmatched(cards, second);
      var i1, i2 := Find(cards, first).value, Find(cards, second).value;
      assert i1 != i2;
      if cards[i1].image == cards[i2].image {
        var cs := cards;
        var newCards := seq(|cs|, i requires 0 <= i < |cs| =>
                              if cs[i].id == first || cs[i].id == second
                              then cs[i].(isMatched := true) else cs[i]);
        assert newCards == cs[i1 := cs[i1].(isMatched := true)][i2 := cs[i2].(isMatched := true)];
        cards := newCards;
        matches := matches + 1;
        points := points + 5;
      } else {
        var cs := cards;
        var newCards := seq(|cs|, i requires 0 <= i < |cs| =>
                              if cs[i].id == first || cs[i].id == second
                              then cs[i].(isFlipped := false) else cs[i]);
        assert newCards == cs[i1 := cs[i1].(isFlipped := false)][i2 := cs[i2].(isFlipped := false)];
        cards := newCards;
      }
      flippedCards := [];
    }

    /** One second of the memory phase: at its last second every card
        turns face down and play begins. */
    method MemoryStep()
      requires Valid()
      modifies this`memoryTime, this`memoryPhaseActive, this`cards, this`gameStarted
      ensures Valid()
      ensures old(memoryPhaseActive) && old(memoryTime) == 1 ==>
                !memoryPhaseActive && gameStarted && memoryTime == 0 && cards == FaceDown(old(cards))
      ensures old(memoryPhaseActive) && old(memoryTime) > 1 ==>
                memoryPhaseActive && memoryTime == old(memoryTime) - 1
                && unchanged(this`cards, this`gameStarted)
      ensures !old(memoryPhaseActive) || old(memoryTime) == 0 ==> unchanged(this)
    {
      if memoryPhaseActive && memoryTime > 0 {
        if memoryTime <= 1 {
          memoryPhaseActive := false;
          cards := FaceDown(cards);
          gameStarted := true;
          memoryTime := 0;
        } else {
          memoryTime := memoryTime - 1;
        }
      }
    }

    /** The clock runs out: the game is judged, and the game-timer effect
        asks for the win screen whatever the judgement. */
    method TimeOut(rand: seq<nat>)
      requires Valid() && gameStarted
      modifies this`cards, this`flippedCards, this`matches, this`points, this`gameStarted,
               this`gameCompleted, this`memoryTime, this`timeRemaining, this`showWinScreen,
               this`winTimer, this`memoryPhaseActive, this`showRetryScreen
      ensures Valid()
      ensures TimedOut() && (gameCompleted ==> timeRemaining == old(timeRemaining))
      ensures !CanContinue(old(points), old(matches)) && retryTimer > 0 && intro.Started? ==>
                View() == RetryScreen
    {
      gameCompleted := true;
      showWinScreen := true;
      Evaluate(rand);
    }

    /** One second of the game clock, which runs only during play before
        the judgement; reaching 0 runs the time-out. */
    method ClockStep(rand: seq<nat>)
      requires Valid()
      modifies this`cards, this`flippedCards, this`matches, this`points, this`gameStarted,
               this`gameCompleted, this`memoryTime, this`timeRemaining, this`showWinScreen,
               this`winTimer, this`memoryPhaseActive, this`showRetryScreen
      ensures Valid()
      ensures old(gameStarted) && !old(gameCompleted) ==> ClockSecond()
      ensures !(old(gameStarted) && !old(gameCompleted)) ==> unchanged(this)
    {
      if gameStarted && !gameCompleted && timeRemaining > 0 {
        timeRemaining := timeRemaining - 1;
        if timeRemaining == 0 {
          TimeOut(rand);
        }
      }
    }

    /** One second of the win screen: its timer reaching 0 completes the
        game. */
    method WinStep()
      requires Valid()
      modifies this`winTimer, this`completed
      ensures Valid()
      ensures old(showWinScreen) ==> winTimer == (if old(winTimer) > 0 then old(winTimer) - 1 else 0)
      ensures old(showWinScreen) ==> (completed <==> old(completed) || winTimer == 0)
      ensures !old(showWinScreen) ==> unchanged(this)
    {
      if showWinScreen {
        if winTimer > 0 {
          winTimer := winTimer - 1;
        }
        if winTimer == 0 {
          completed := true;
        }
      }
    }

    /** One second of the retry screen: its timer reaching 0 deals again,
        with the same attempt number, and the timer is not wound back. */
    method RetryStep(rand: seq<nat>)
      requires Valid()
      modifies this`retryTimer, this`cards, this`flippedCards, this`matches, this`points,
               this`gameStarted, this`gameCompleted, this`memoryTime, this`timeRemaining,
               this`showWinScreen, this`winTimer, this`memoryPhaseActive, this`showRetryScreen
      ensures Valid()
      ensures old(showRetryScreen) ==> retryTimer == (if old(retryTimer) > 0 then old(retryTimer) - 1 else 0)
      ensures old(showRetryScreen) && retryTimer == 0 ==> NewGame()
      ensures old(showRetryScreen) && retryTimer > 0 ==>
                unchanged(this`cards, this`flippedCards, this`matches, this`points, this`gameStarted,
                          this`gameCompleted, this`memoryTime, this`timeRemaining, this`showWinScreen,
                          this`winTimer, this`memoryPhaseActive, this`showRetryScreen)
      ensures !old(showRetryScreen) ==> unchanged(this)
    {
      if showRetryScreen {
        if retryTimer > 0 {
          retryTimer := retryTimer - 1;
        }
        if retryTimer == 0 {
          showRetryScreen := false;
          InitializeGame(rand);
        }
      }
    }

    /** One second of the component: the opening (whose end deals the
        first game), then the timer of the phase the game is in: the
        memory phase, the game clock, or the win and retry screens.  The
        clock does not run in the second the memory phase ends. */
    method Tick(rand: seq<nat>)
      requires Valid()
      modifies this`intro, this`retryTimer, this`completed, this`cards, this`flippedCards,
               this`matches, this`points, this`gameStarted, this`gameCompleted, this`memoryTime,
               this`timeRemaining, this`showWinScreen, this`winTimer, this`memoryPhaseActive,
               this`showRetryScreen
      ensures Valid()
      ensures !old(intro).Started? ==>
                && intro == IntroTick(old(intro)) && unchanged(this`retryTimer, this`completed)
                && if intro.Started? && !old(gameStarted) && !old(gameCompleted) then NewGame()
                   else unchanged(this`cards, this`flippedCards, this`matches, this`points,
                                  this`gameStarted, this`gameCompleted, this`memoryTime,
                                  this`timeRemaining, this`showWinScreen, this`winTimer,
                                  this`memoryPhaseActive, this`showRetryScreen)
      ensures old(intro).Started? ==> intro == old(intro)
      ensures old(intro).Started? && old(memoryPhaseActive) ==>
                && (old(memoryTime) == 1 ==>
                      !memoryPhaseActive && gameStarted && memoryTime == 0 && cards == FaceDown(old(cards)))
                && (old(memoryTime) > 1 ==>
                      memoryPhaseActive && memoryTime == old(memoryTime) - 1
                      && unchanged(this`cards, this`gameStarted))
                && unchanged(this`retryTimer, this`completed, this`flippedCards, this`matches,
                             this`points, this`gameCompleted, this`timeRemaining, this`showWinScreen,
                             this`winTimer, this`showRetryScreen)
      ensures old(intro).Started? && old(gameStarted) && !old(gameCompleted) ==>
                ClockSecond() && unchanged(this`retryTimer, this`completed)
      ensures old(intro).Started? && old(gameCompleted) ==>
                && retryTimer == (if old(showRetryScreen) && old(retryTimer) > 0
                                  then old(retryTimer) - 1 else old(retryTimer))
                && completed == (old(completed) || (old(showWinScreen) && old(winTimer) <= 1))
                && if old(showRetryScreen) && retryTimer == 0 then NewGame()
                   else && winTimer == (if old(showWinScreen) && old(winTimer) > 0
                                        then old(winTimer) - 1 else old(winTimer))
                        && unchanged(this`cards, this`flippedCards, this`matches, this`points,
                                     this`gameStarted, this`gameCompleted, this`memoryTime,
                                     this`timeRemaining, this`showWinScreen,
                                     this`memoryPhaseActive, this`showRetryScreen)
      ensures old(intro).Started? && !old(memoryPhaseActive) && !old(gameStarted) && !old(gameCompleted) ==>
                unchanged(this)
    {
      if !intro.Started? {
        OpeningStep(rand);
      } else {
        PhaseStep(rand);
      }
    }

    /** One second of the rules or the countdown; when play starts the
        first game is dealt. */
    method OpeningStep(rand: seq<nat>)
      requires Valid() && !intro.Started?
      modifies this`intro, this`retryTimer, this`completed, this`cards, this`flippedCards,
               this`matches, this`points, this`gameStarted, this`gameCompleted, this`memoryTime,
               this`timeRemaining, this`showWinScreen, this`winTimer, this`memoryPhaseActive,
               this`showRetryScreen
      ensures Valid()
      ensures intro == IntroTick(old(intro)) && unchanged(this`retryTimer, this`completed)
      ensures if intro.Started? && !old(gameStarted) && !old(gameCompleted) then NewGame()
              else unchanged(this`cards, this`flippedCards, this`matches, this`points,
                             this`gameStarted, this`gameCompleted, this`memoryTime,
                             this`timeRemaining, this`showWinScreen, this`winTimer,
                             this`memoryPhaseActive, this`showRetryScreen)
    {
      intro := IntroTick(intro);
      if intro.Started? && !gameStarted && !gameCompleted {
        InitializeGame(rand);
      }
    }

    /** One second after the opening.  The memory phase, play before the
        judgement and the judged game exclude one another, so one of
        their timers runs: the memory phase, the game clock, or the win
        and retry screens together. */
    method PhaseStep(rand: seq<nat>)
      requires Valid() && intro.Started?
      modifies this`retryTimer, this`completed, this`cards, this`flippedCards,
               this`matches, this`points, this`gameStarted, this`gameCompleted, this`memoryTime,
               this`timeRemaining, this`showWinScreen, this`winTimer, this`memoryPhaseActive,
               this`showRetryScreen
      ensures Valid()
      ensures old(memoryPhaseActive) ==>
                && (old(memoryTime) == 1 ==>
                      !memoryPhaseActive && gameStarted && memoryTime == 0 && cards == FaceDown(old(cards)))
                && (old(memoryTime) > 1 ==>
                      memoryPhaseActive && memoryTime == old(memoryTime) - 1
                      && unchanged(this`cards, this`gameStarted))
                && unchanged(this`retryTimer, this`completed, this`flippedCards, this`matches,
                             this`points, this`gameCompleted, this`timeRemaining, this`showWinScreen,
                             this`winTimer, this`showRetryScreen)
      ensures old(gameStarted) && !old(gameCompleted) ==>
                ClockSecond() && unchanged(this`retryTimer, this`completed)
      ensures old(gameCompleted) ==>
                && retryTimer == (if old(showRetryScreen) && old(retryTimer) > 0
                                  then old(retryTimer) - 1 else old(retryTimer))
                && completed == (old(completed) || (old(showWinScreen) && old(winTimer) <= 1))
                && if old(showRetryScreen) && retryTimer == 0 then NewGame()
                   else && winTimer == (if old(showWinScreen) && old(winTimer) > 0
                                        then old(winTimer) - 1 else old(winTimer))
                        && unchanged(this`cards, this`flippedCards, this`matches, this`points,
                                     this`gameStarted, this`gameCompleted, this`memoryTime,
                                     this`timeRemaining, this`showWinScreen,
                                     this`memoryPhaseActive, this`showRetryScreen)
      ensures !old(memoryPhaseActive) && !old(gameStarted) && !old(gameCompleted) ==>
                unchanged(this)
    {
      if memoryPhaseActive {
        MemoryStep();
      } else if gameCompleted {
        JudgedStep(rand);
      } else if gameStarted {
        ClockStep(rand);
      }
    }

    /** One second of a judged game: the win screen's timer and the retry
        screen's timer, each when its screen is up; a retry timer
        reaching 0 deals again. */
    method JudgedStep(rand: seq<nat>)
      requires Valid() && gameCompleted
      modifies this`retryTimer, this`completed, this`cards, this`flippedCards,
               this`matches, this`points, this`gameStarted, this`gameCompleted, this`memoryTime,
               this`timeRemaining, this`showWinScreen, this`winTimer, this`memoryPhaseActive,
               this`showRetryScreen
      ensures Valid()
      ensures retryTimer == (if old(showRetryScreen) && old(retryTimer) > 0
                             then old(retryTimer) - 1 else old(retryTimer))
      ensures completed == (old(completed) || (old(showWinScreen) && old(winTimer) <= 1))
      ensures if old(showRetryScreen) && retryTimer == 0 then NewGame()
              else && winTimer == (if old(showWinScreen) && old(winTimer) > 0
                                   then old(winTimer) - 1 else old(winTimer))
                   && unchanged(this`cards, this`flippedCards, this`matches, this`points,
                                this`gameStarted, this`gameCompleted, this`memoryTime,
                                this`timeRemaining, this`showWinScreen,
                                this`memoryPhaseActive, this`showRetryScreen)
    {
      WinStep();
      RetryStep(rand);
    }
  }

  /** A game that runs out of time with too few pairs shows the retry
      screen, although the game-timer effect has asked for the win screen
      as well. */
  method FailedTimeOutShowsRetry(rand: seq<nat>) returns (view: Screen, winRequested: bool)
    ensures view == RetryScreen && winRequested
  {
    var g := new Game();
    g.intro := Started;
    g.gameStarted := true;
    g.timeRemaining := 1;
    g.ClockStep(rand);
    view, winRequested := g.View(), g.showWinScreen;
  }

  /** The retry timer is never wound back: after the first retry screen
      has run its four seconds, the next failed game deals again at once,
      without showing the retry screen at all. */
  method SecondFailureRedealsAtOnce(rand: seq<nat>) returns (firstRetryShown: bool, secondRetryShown: bool, redealt: bool)
    ensures firstRetryShown && !secondRetryShown && redealt
  {
    var g;
    g, firstRetryShown := FirstFailure(rand);
    g.memoryPhaseActive := false;
    g.gameStarted := true;
    g.timeRemaining := 1;
    g.ClockStep(rand);
    secondRetryShown := g.showRetryScreen;
    redealt := g.memoryPhaseActive && g.matches == 0;
  }

  /** A game that ran out of time with no pair found: the retry screen
      shows for its four seconds and the cards are dealt again, leaving
      the retry timer at 0. */
  method FirstFailure(rand: seq<nat>) returns (g: Game, retryShown: bool)
    ensures fresh(g) && g.Valid() && retryShown
    ensures g.retryTimer == 0 && !g.gameCompleted && g.matches == 0 && g.points == 0
    ensures g.flippedCards == []
  {
    g := new Game();
    g.intro := Started;
    g.gameStarted := true;
    g.timeRemaining := 1;
    g.ClockStep(rand);
    retryShown := g.showRetryScreen;
    assert g.retryTimer == 4 && g.showRetryScreen;
    g.RetryStep(rand);
    assert g.retryTimer == 3 && g.showRetryScreen;
    g.RetryStep(rand);
    assert g.retryTimer == 2 && g.showRetryScreen;
    g.RetryStep(rand);
    assert g.retryTimer == 1 && g.showRetryScreen;
    g.RetryStep(rand);
    assert g.retryTimer == 0;
  }
}
