/**
 * Combat, the card game of 2020 day 22: two players hold ordered decks
 * (front = next card drawn), play rounds, and the final score is a weighted
 * sum over the winning deck. Two variants: the simple game (`play`) and
 * Recursive Combat (`play_rec` / `rec_round`) with per-level seen-deck caches.
 *
 * The `VecDeque`s of the source are sequences; a deck that `rec_round`
 * changes through `&mut` is passed in and handed back. The simple game can
 * run forever. Each level of `rec_round` stops because its cache of player 1's
 * decks only grows over finitely many arrangements, and a sub-game holds
 * fewer cards than its parent; that argument is not proved here. Every loop
 * and recursion therefore takes a `fuel` bound and reports `Exhausted` /
 * `OutOfFuel` when it runs out.
 */
module Combat {

  /** Card values; the source stores them as `u8` and parses positive integers. */
  type Card = nat
  type Deck = seq<Card>

  datatype Option<T> = None | Some(value: T)

  /** How a game ends: the winner (1 or 2) and both final decks, a panic at
      `unreachable!()`, or the fuel bound of this model running out. */
  datatype Ending = Ended(winner: nat, p1: Deck, p2: Deck) | Panicked | Exhausted

  /** What `play` / `play_rec` hand back. */
  datatype Outcome = Scored(points: nat) | Unreachable | OutOfFuel

  predicate AllPositive(hand: Deck) {
    forall i :: 0 <= i < |hand| ==> hand[i] > 0
  }

  // ---------------------------------------------------------------------------
  // score
  // ---------------------------------------------------------------------------

  /** The hand read from the bottom up (`iter().rev().enumerate()`), the card
      met k-th (counting from `rank`) weighted by k. */
  function RankedSum(hand: Deck, rank: nat): (r: nat)
    ensures hand == [] ==> r == 0
    ensures rank > 0 && hand != [] && AllPositive(hand) ==> r > 0
    decreases |hand|
  {
    if hand == [] then 0
    else rank * hand[|hand| - 1] + RankedSum(hand[..|hand| - 1], rank + 1)
  }

  /** `score`: the bottom card counts once, the one above it twice, and so on. */
  function Score(hand: Deck): (r: nat)
    ensures hand == [] ==> r == 0
    ensures hand != [] && AllPositive(hand) ==> r > 0
  {
    RankedSum(hand, 1)
  }

  /** Reference definition: the card at position k from the front weighs |hand| - k. */
  function FrontWeighted(hand: Deck): nat {
    if hand == [] then 0 else |hand| * hand[0] + FrontWeighted(hand[1..])
  }

  function Total(hand: Deck): nat {
    if hand == [] then 0 else hand[0] + Total(hand[1..])
  }

  lemma {:induction false} TotalLast(s: Deck)
    requires s != []
    ensures Total(s) == Total(s[..|s| - 1]) + s[|s| - 1]
    decreases |s|
  {
    if |s| > 1 {
      var t := s[1..];
      TotalLast(t);
      assert t[..|t| - 1] == s[..|s| - 1][1..];
    }
  }

  lemma {:induction false} FrontWeightedLast(s: Deck)
    requires s != []
    ensures FrontWeighted(s) == FrontWeighted(s[..|s| - 1]) + Total(s)
    decreases |s|
  {
    if |s| > 1 {
      var t := s[1..];
      FrontWeightedLast(t);
      var init := s[..|s| - 1];
      assert init[1..] == t[..|t| - 1];
      assert FrontWeighted(init) == (|s| - 1) * s[0] + FrontWeighted(t[..|t| - 1]);
    }
  }

  lemma Distribute(a: int, b: int, c: int)
    ensures a * (b + c) == a * b + a * c
  {
  }

  lemma {:induction false} RankedSumShift(s: Deck, rank: nat)
    requires rank >= 1
    ensures RankedSum(s, rank) == FrontWeighted(s) + (rank - 1) * Total(s)
    decreases |s|
  {
    if s != [] {
      var init, last := s[..|s| - 1], s[|s| - 1];
      RankedSumShift(init, rank + 1);
      FrontWeightedLast(s);
      TotalLast(s);
      ShiftArithmetic(rank, last, Total(init), FrontWeighted(init));
    }
  }

  lemma ShiftArithmetic(rank: int, last: int, t: int, f: int)
    ensures rank * last + f + rank * t == (f + t + last) + (rank - 1) * (t + last)
  {
    Distribute(rank - 1, t, last);
    Distribute(rank, t, last);
  }

  /** `score` equals the sum over positions of (position from the bottom,
      1-indexed) times the card value. */
  lemma ScoreByPosition(hand: Deck)
    ensures Score(hand) == FrontWeighted(hand)
    ensures hand != [] ==> Score(hand) == |hand| * hand[0] + Score(hand[1..])
  {
    RankedSumShift(hand, 1);
    assert (1 - 1) * Total(hand) == 0;
    if hand != [] {
      RankedSumShift(hand[1..], 1);
      assert (1 - 1) * Total(hand[1..]) == 0;
      assert FrontWeighted(hand) == |hand| * hand[0] + FrontWeighted(hand[1..]);
    }
  }

  // ---------------------------------------------------------------------------
  // one round: the two drawn cards go to the round's winner
  // ---------------------------------------------------------------------------

  /** After both top cards are drawn, the round's winner `w` (1 or 2) takes them. */
  function Award(d1: Deck, d2: Deck, w: nat): (r: (Deck, Deck))
    requires d1 != [] && d2 != []
    requires w == 1 || w == 2
    ensures |r.0| + |r.1| == |d1| + |d2|
  {
    if w == 1 then (d1[1..] + [d1[0], d2[0]], d2[1..])
    else (d1[1..], d2[1..] + [d2[0], d1[0]])
  }

  /** The winner puts its own card, then the opponent's, at the bottom of its
      deck, behind the cards it already held; the other deck only loses its top. */
  lemma AwardOrder(d1: Deck, d2: Deck, w: nat)
    requires d1 != [] && d2 != []
    requires w == 1 || w == 2
    ensures var r := Award(d1, d2, w);
            if w == 1 then
              |r.0| == |d1| + 1 && r.0[..|d1| - 1] == d1[1..] && r.0[|d1| - 1..] == [d1[0], d2[0]]
              && r.1 == d2[1..]
            else
              |r.1| == |d2| + 1 && r.1[..|d2| - 1] == d2[1..] && r.1[|d2| - 1..] == [d2[0], d1[0]]
              && r.0 == d1[1..]
  {
  }

  /** No card is created or lost in a round. */
  lemma AwardConserves(d1: Deck, d2: Deck, w: nat)
    requires d1 != [] && d2 != []
    requires w == 1 || w == 2
    ensures multiset(Award(d1, d2, w).0) + multiset(Award(d1, d2, w).1) == multiset(d1) + multiset(d2)
  {
    assert d1 == [d1[0]] + d1[1..];
    assert d2 == [d2[0]] + d2[1..];
  }

  // ---------------------------------------------------------------------------
  // play: the simple game
  // ---------------------------------------------------------------------------

  /** The simple game from decks `d1`, `d2`, at most `fuel` rounds. A round on
      an empty deck or a tie panics; the game ends as soon as a deck is empty. */
  function SimpleGame(d1: Deck, d2: Deck, fuel: nat): (e: Ending)
    ensures fuel > 0 && (d1 == [] || d2 == [] || d1[0] == d2[0]) ==> e == Panicked
    ensures e.Ended? ==> (e.p1 == [] <==> e.p2 != [])
    ensures e.Ended? ==> (e.winner == 1 || e.winner == 2) && (e.winner == 1 <==> e.p2 == [])
    decreases fuel
  {
    if fuel == 0 then Exhausted
    else if d1 == [] || d2 == [] || d1[0] == d2[0] then Panicked
    else
      var r := Award(d1, d2, if d1[0] > d2[0] then 1 else 2);
      if r.0 == [] then Ended(2, r.0, r.1)
      else if r.1 == [] then Ended(1, r.0, r.1)
      else SimpleGame(r.0, r.1, fuel - 1)
  }

  /** The cards held when the simple game ends are exactly the cards dealt. */
  lemma {:induction false} SimpleGameConserves(d1: Deck, d2: Deck, fuel: nat)
    ensures SimpleGame(d1, d2, fuel).Ended? ==>
              multiset(SimpleGame(d1, d2, fuel).p1) + multiset(SimpleGame(d1, d2, fuel).p2)
              == multiset(d1) + multiset(d2)
    decreases fuel
  {
    if fuel > 0 && d1 != [] && d2 != [] && d1[0] != d2[0] {
      var w := if d1[0] > d2[0] then 1 else 2;
      var r := Award(d1, d2, w);
      AwardConserves(d1, d2, w);
      if r.0 != [] && r.1 != [] {
        SimpleGameConserves(r.0, r.1, fuel - 1);
      }
    }
  }

  /** `play`: runs the simple game and scores the deck that is not empty. */
  method Play(d1: Deck, d2: Deck, fuel: nat) returns (r: Outcome)
    ensures match SimpleGame(d1, d2, fuel)
            case Ended(_, e1, e2) => r == Scored(Score(if e1 == [] then e2 else e1))
            case Panicked => r == Unreachable
            case Exhausted => r == OutOfFuel
  {
    var player1, player2 := d1, d2;
    var budget: nat := fuel;
    while true
      invariant SimpleGame(player1, player2, budget) == SimpleGame(d1, d2, fuel)
      decreases budget
    {
      if budget == 0 {
        return OutOfFuel;
      }
      if player1 == [] || player2 == [] || player1[0] == player2[0] {
        return Unreachable;
      }
      ghost var before1, before2 := player1, player2;
      var c1, c2 := player1[0], player2[0];
      player1, player2 := player1[1..], player2[1..];
      if c1 > c2 {
        player1 := player1 + [c1, c2];
      } else {
        player2 := player2 + [c2, c1];
      }
      assert (player1, player2) == Award(before1, before2, if c1 > c2 then 1 else 2);
      budget := budget - 1;
      if player1 == [] || player2 == [] {
        break;
      }
    }
    if player1 == [] {
      r := Scored(Score(player2));
    } else {
      r := Scored(Score(player1));
    }
  }

  /** One round of the simple game, with the decks it leaves given explicitly. */
  lemma SimpleRound(d1: Deck, d2: Deck, fuel: nat, e1: Deck, e2: Deck)
    requires fuel > 0 && d1 != [] && d2 != [] && d1[0] != d2[0]
    requires e1 == Award(d1, d2, if d1[0] > d2[0] then 1 else 2).0
    requires e2 == Award(d1, d2, if d1[0] > d2[0] then 1 else 2).1
    ensures SimpleGame(d1, d2, fuel)
            == if e1 == [] then Ended(2, e1, e2) else if e2 == [] then Ended(1, e1, e2)
               else SimpleGame(e1, e2, fuel - 1)
  {
  }

  // The simple example, three rounds per lemma.

  lemma SimpleExampleFrom0(fuel: nat)
    requires fuel >= 29
    ensures SimpleGame([9, 2, 6, 3, 1], [5, 8, 4, 7, 10], fuel)
            == Ended(2, [], [3, 2, 10, 6, 8, 5, 9, 4, 7, 1])
  {
    calc {
      SimpleGame([9, 2, 6, 3, 1], [5, 8, 4, 7, 10], fuel);
      { SimpleRound([9, 2, 6, 3, 1], [5, 8, 4, 7, 10], fuel, [2, 6, 3, 1, 9, 5], [8, 4, 7, 10]); }
      SimpleGame([2, 6, 3, 1, 9, 5], [8, 4, 7, 10], fuel - 1);
      { SimpleRound([2, 6, 3, 1, 9, 5], [8, 4, 7, 10], fuel - 1, [6, 3, 1, 9, 5], [4, 7, 10, 8, 2]); }
      SimpleGame([6, 3, 1, 9, 5], [4, 7, 10, 8, 2], fuel - 2);
      { SimpleRound([6, 3, 1, 9, 5], [4, 7, 10, 8, 2], fuel - 2, [3, 1, 9, 5, 6, 4], [7, 10, 8, 2]); }
      SimpleGame([3, 1, 9, 5, 6, 4], [7, 10, 8, 2], fuel - 3);
      { SimpleExampleFrom3(fuel - 3); }
      Ended(2, [], [3, 2, 10, 6, 8, 5, 9, 4, 7, 1]);
    }
  }

  lemma SimpleExampleFrom3(fuel: nat)
    requires fuel >= 26
    ensures SimpleGame([3, 1, 9, 5, 6, 4], [7, 10, 8, 2], fuel)
            == Ended(2, [], [3, 2, 10, 6, 8, 5, 9, 4, 7, 1])
  {
    calc {
      SimpleGame([3, 1, 9, 5, 6, 4], [7, 10, 8, 2], fuel);
      { SimpleRound([3, 1, 9, 5, 6, 4], [7, 10, 8, 2], fuel, [1, 9, 5, 6, 4], [10, 8, 2, 7, 3]); }
      SimpleGame([1, 9, 5, 6, 4], [10, 8, 2, 7, 3], fuel - 1);
      { SimpleRound([1, 9, 5, 6, 4], [10, 8, 2, 7, 3], fuel - 1, [9, 5, 6, 4], [8, 2, 7, 3, 10, 1]); }
      SimpleGame([9, 5, 6, 4], [8, 2, 7, 3, 10, 1], fuel - 2);
      { SimpleRound([9, 5, 6, 4], [8, 2, 7, 3, 10, 1], fuel - 2, [5, 6, 4, 9, 8], [2, 7, 3, 10, 1]); }
      SimpleGame([5, 6, 4, 9, 8], [2, 7, 3, 10, 1], fuel - 3);
      { SimpleExampleFrom6(fuel - 3); }
      Ended(2, [], [3, 2, 10, 6, 8, 5, 9, 4, 7, 1]);
    }
  }

  lemma SimpleExampleFrom6(fuel: nat)
    requires fuel >= 23
    ensures SimpleGame([5, 6, 4, 9, 8], [2, 7, 3, 10, 1], fuel)
            == Ended(2, [], [3, 2, 10, 6, 8, 5, 9, 4, 7, 1])
  {
    calc {
      SimpleGame([5, 6, 4, 9, 8], [2, 7, 3, 10, 1], fuel);
      { SimpleRound([5, 6, 4, 9, 8], [2, 7, 3, 10, 1], fuel, [6, 4, 9, 8, 5, 2], [7, 3, 10, 1]); }
      SimpleGame([6, 4, 9, 8, 5, 2], [7, 3, 10, 1], fuel - 1);
      { SimpleRound([6, 4, 9, 8, 5, 2], [7, 3, 10, 1], fuel - 1, [4, 9, 8, 5, 2], [3, 10, 1, 7, 6]); }
      SimpleGame([4, 9, 8, 5, 2], [3, 10, 1, 7, 6], fuel - 2);
      { SimpleRound([4, 9, 8, 5, 2], [3, 10, 1, 7, 6], fuel - 2, [9, 8, 5, 2, 4, 3], [10, 1, 7, 6]); }
      SimpleGame([9, 8, 5, 2, 4, 3], [10, 1, 7, 6], fuel - 3);
      { SimpleExampleFrom9(fuel - 3); }
      Ended(2, [], [3, 2, 10, 6, 8, 5, 9, 4, 7, 1]);
    }
  }

  lemma SimpleExampleFrom9(fuel: nat)
    requires fuel >= 20
    ensures SimpleGame([9, 8, 5, 2, 4, 3], [10, 1, 7, 6], fuel)
            == Ended(2, [], [3, 2, 10, 6, 8, 5, 9, 4, 7, 1])
  {
    calc {
      SimpleGame([9, 8, 5, 2, 4, 3], [10, 1, 7, 6], fuel);
      { SimpleRound([9, 8, 5, 2, 4, 3], [10, 1, 7, 6], fuel, [8, 5, 2, 4, 3], [1, 7, 6, 10, 9]); }
      SimpleGame([8, 5, 2, 4, 3], [1, 7, 6, 10, 9], fuel - 1);
      { SimpleRound([8, 5, 2, 4, 3], [1, 7, 6, 10, 9], fuel - 1, [5, 2, 4, 3, 8, 1], [7, 6, 10, 9]); }
      SimpleGame([5, 2, 4, 3, 8, 1], [7, 6, 10, 9], fuel - 2);
      { SimpleRound([5, 2, 4, 3, 8, 1], [7, 6, 10, 9], fuel - 2, [2, 4, 3, 8, 1], [6, 10, 9, 7, 5]); }
      SimpleGame([2, 4, 3, 8, 1], [6, 10, 9, 7, 5], fuel - 3);
      { SimpleExampleFrom12(fuel - 3); }
      Ended(2, [], [3, 2, 10, 6, 8, 5, 9, 4, 7, 1]);
    }
  }

  lemma SimpleExampleFrom12(fuel: nat)
    requires fuel >= 17
    ensures SimpleGame([2, 4, 3, 8, 1], [6, 10, 9, 7, 5], fuel)
            == Ended(2, [], [3, 2, 10, 6, 8, 5, 9, 4, 7, 1])
  {
    calc {
      SimpleGame([2, 4, 3, 8, 1], [6, 10, 9, 7, 5], fuel);
      { SimpleRound([2, 4, 3, 8, 1], [6, 10, 9, 7, 5], fuel, [4, 3, 8, 1], [10, 9, 7, 5, 6, 2]); }
      SimpleGame([4, 3, 8, 1], [10, 9, 7, 5, 6, 2], fuel - 1);
      { SimpleRound([4, 3, 8, 1], [10, 9, 7, 5, 6, 2], fuel - 1, [3, 8, 1], [9, 7, 5, 6, 2, 10, 4]); }
      SimpleGame([3, 8, 1], [9, 7, 5, 6, 2, 10, 4], fuel - 2);
      { SimpleRound([3, 8, 1], [9, 7, 5, 6, 2, 10, 4], fuel - 2, [8, 1], [7, 5, 6, 2, 10, 4, 9, 3]); }
      SimpleGame([8, 1], [7, 5, 6, 2, 10, 4, 9, 3], fuel - 3);
      { SimpleExampleFrom15(fuel - 3); }
      Ended(2, [], [3, 2, 10, 6, 8, 5, 9, 4, 7, 1]);
    }
  }

  lemma SimpleExampleFrom15(fuel: nat)
    requires fuel >= 14
    ensures SimpleGame([8, 1], [7, 5, 6, 2, 10, 4, 9, 3], fuel)
            == Ended(2, [], [3, 2, 10, 6, 8, 5, 9, 4, 7, 1])
  {
    calc {
      SimpleGame([8, 1], [7, 5, 6, 2, 10, 4, 9, 3], fuel);
      { SimpleRound([8, 1], [7, 5, 6, 2, 10, 4, 9, 3], fuel, [1, 8, 7], [5, 6, 2, 10, 4, 9, 3]); }
      SimpleGame([1, 8, 7], [5, 6, 2, 10, 4, 9, 3], fuel - 1);
      { SimpleRound([1, 8, 7], [5, 6, 2, 10, 4, 9, 3], fuel - 1, [8, 7], [6, 2, 10, 4, 9, 3, 5, 1]); }
      SimpleGame([8, 7], [6, 2, 10, 4, 9, 3, 5, 1], fuel - 2);
      { SimpleRound([8, 7], [6, 2, 10, 4, 9, 3, 5, 1], fuel - 2, [7, 8, 6], [2, 10, 4, 9, 3, 5, 1]); }
      SimpleGame([7, 8, 6], [2, 10, 4, 9, 3, 5, 1], fuel - 3);
      { SimpleExampleFrom18(fuel - 3); }
      Ended(2, [], [3, 2, 10, 6, 8, 5, 9, 4, 7, 1]);
    }
  }

  lemma SimpleExampleFrom18(fuel: nat)
    requires fuel >= 11
    ensures SimpleGame([7, 8, 6], [2, 10, 4, 9, 3, 5, 1], fuel)
            == Ended(2, [], [3, 2, 10, 6, 8, 5, 9, 4, 7, 1])
  {
    calc {
      SimpleGame([7, 8, 6], [2, 10, 4, 9, 3, 5, 1], fuel);
      { SimpleRound([7, 8, 6], [2, 10, 4, 9, 3, 5, 1], fuel, [8, 6, 7, 2], [10, 4, 9, 3, 5, 1]); }
      SimpleGame([8, 6, 7, 2], [10, 4, 9, 3, 5, 1], fuel - 1);
      { SimpleRound([8, 6, 7, 2], [10, 4, 9, 3, 5, 1], fuel - 1, [6, 7, 2], [4, 9, 3, 5, 1, 10, 8]); }
      SimpleGame([6, 7, 2], [4, 9, 3, 5, 1, 10, 8], fuel - 2);
      { SimpleRound([6, 7, 2], [4, 9, 3, 5, 1, 10, 8], fuel - 2, [7, 2, 6, 4], [9, 3, 5, 1, 10, 8]); }
      SimpleGame([7, 2, 6, 4], [9, 3, 5, 1, 10, 8], fuel - 3);
      { SimpleExampleFrom21(fuel - 3); }
      Ended(2, [], [3, 2, 10, 6, 8, 5, 9, 4, 7, 1]);
    }
  }

  lemma SimpleExampleFrom21(fuel: nat)
    requires fuel >= 8
    ensures SimpleGame([7, 2, 6, 4], [9, 3, 5, 1, 10, 8], fuel)
            == Ended(2, [], [3, 2, 10, 6, 8, 5, 9, 4, 7, 1])
  {
    calc {
      SimpleGame([7, 2, 6, 4], [9, 3, 5, 1, 10, 8], fuel);
      { SimpleRound([7, 2, 6, 4], [9, 3, 5, 1, 10, 8], fuel, [2, 6, 4], [3, 5, 1, 10, 8, 9, 7]); }
      SimpleGame([2, 6, 4], [3, 5, 1, 10, 8, 9, 7], fuel - 1);
      { SimpleRound([2, 6, 4], [3, 5, 1, 10, 8, 9, 7], fuel - 1, [6, 4], [5, 1, 10, 8, 9, 7, 3, 2]); }
      SimpleGame([6, 4], [5, 1, 10, 8, 9, 7, 3, 2], fuel - 2);
      { SimpleRound([6, 4], [5, 1, 10, 8, 9, 7, 3, 2], fuel - 2, [4, 6, 5], [1, 10, 8, 9, 7, 3, 2]); }
      SimpleGame([4, 6, 5], [1, 10, 8, 9, 7, 3, 2], fuel - 3);
      { SimpleExampleFrom24(fuel - 3); }
      Ended(2, [], [3, 2, 10, 6, 8, 5, 9, 4, 7, 1]);
    }
  }

  lemma SimpleExampleFrom24(fuel: nat)
    requires fuel >= 5
    ensures SimpleGame([4, 6, 5], [1, 10, 8, 9, 7, 3, 2], fuel)
            == Ended(2, [], [3, 2, 10, 6, 8, 5, 9, 4, 7, 1])
  {
    calc {
      SimpleGame([4, 6, 5], [1, 10, 8, 9, 7, 3, 2], fuel);
      { SimpleRound([4, 6, 5], [1, 10, 8, 9, 7, 3, 2], fuel, [6, 5, 4, 1], [10, 8, 9, 7, 3, 2]); }
      SimpleGame([6, 5, 4, 1], [10, 8, 9, 7, 3, 2], fuel - 1);
      { SimpleRound([6, 5, 4, 1], [10, 8, 9, 7, 3, 2], fuel - 1, [5, 4, 1], [8, 9, 7, 3, 2, 10, 6]); }
      SimpleGame([5, 4, 1], [8, 9, 7, 3, 2, 10, 6], fuel - 2);
      { SimpleRound([5, 4, 1], [8, 9, 7, 3, 2, 10, 6], fuel - 2, [4, 1], [9, 7, 3, 2, 10, 6, 8, 5]); }
      SimpleGame([4, 1], [9, 7, 3, 2, 10, 6, 8, 5], fuel - 3);
      { SimpleExampleFrom27(fuel - 3); }
      Ended(2, [], [3, 2, 10, 6, 8, 5, 9, 4, 7, 1]);
    }
  }

  lemma SimpleExampleFrom27(fuel: nat)
    requires fuel >= 2
    ensures SimpleGame([4, 1], [9, 7, 3, 2, 10, 6, 8, 5], fuel)
            == Ended(2, [], [3, 2, 10, 6, 8, 5, 9, 4, 7, 1])
  {
    calc {
      SimpleGame([4, 1], [9, 7, 3, 2, 10, 6, 8, 5], fuel);
      { SimpleRound([4, 1], [9, 7, 3, 2, 10, 6, 8, 5], fuel, [1], [7, 3, 2, 10, 6, 8, 5, 9, 4]); }
      SimpleGame([1], [7, 3, 2, 10, 6, 8, 5, 9, 4], fuel - 1);
      { SimpleRound([1], [7, 3, 2, 10, 6, 8, 5, 9, 4], fuel - 1, [], [3, 2, 10, 6, 8, 5, 9, 4, 7, 1]); }
      Ended(2, [], [3, 2, 10, 6, 8, 5, 9, 4, 7, 1]);
    }
  }

  /** On the decks of the source's test, the simple game ends after 29 rounds
      with player 2 holding every card; `play` then scores 306. */
  lemma SimpleExample(fuel: nat)
    requires fuel >= 29
    ensures SimpleGame([9, 2, 6, 3, 1], [5, 8, 4, 7, 10], fuel)
            == Ended(2, [], [3, 2, 10, 6, 8, 5, 9, 4, 7, 1])
    ensures Score([3, 2, 10, 6, 8, 5, 9, 4, 7, 1]) == 306
  {
    SimpleScoreExample();
    SimpleExampleFrom0(fuel);
  }

  /** Whether a round is decided by a sub-game: each player holds, below the
      card it draws, at least as many cards as that card's value. */
  predicate SubGameLegal(d1: Deck, d2: Deck)
    requires d1 != [] && d2 != []
  {
    |d1| - 1 >= d1[0] && |d2| - 1 >= d2[0]
  }

  /** Who wins the round played on the top cards of `d1`, `d2`: the winner of a
      sub-game on the next d1[0] and d2[0] cards, started with fresh caches,
      when that is legal; otherwise the holder of the higher card (player 2 on
      equal cards). */
  function RoundWinner(d1: Deck, d2: Deck, fuel: nat): (w: Option<nat>)
    requires d1 != [] && d2 != []
    ensures w.Some? ==> w.value == 1 || w.value == 2
    ensures !SubGameLegal(d1, d2) ==> w == Some(if d1[0] > d2[0] then 1 else 2)
    decreases fuel, 1
  {
    var c1, c2, t1, t2 := d1[0], d2[0], d1[1..], d2[1..];
    if |t1| >= c1 && |t2| >= c2 then
      match RecGame(t1[..c1], t2[..c2], {}, {}, fuel)
      case Ended(sub, _, _) => Some(sub)
      case _ => None
    else
      Some(if c1 > c2 then 1 else 2)
  }

  /** A sub-game is played on exactly the d1[0] cards below player 1's drawn
      card and the d2[0] cards below player 2's, with fresh caches, and its
      winner wins the round. */
  lemma SubGameDecides(d1: Deck, d2: Deck, fuel: nat)
    requires d1 != [] && d2 != [] && SubGameLegal(d1, d2)
    ensures match RecGame(d1[1..1 + d1[0]], d2[1..1 + d2[0]], {}, {}, fuel)
            case Ended(sub, _, _) => RoundWinner(d1, d2, fuel) == Some(sub)
            case _ => RoundWinner(d1, d2, fuel) == None
  {
    assert d1[1..][..d1[0]] == d1[1..1 + d1[0]];
    assert d2[1..][..d2[0]] == d2[1..1 + d2[0]];
  }

  /** One level of Recursive Combat (`rec_round`), from decks `d1`, `d2`, with
      the decks this level has already seen for player 1 (`seen1`) and for
      player 2 (`seen2`), at most `fuel` rounds deep. */
  function RecGame(d1: Deck, d2: Deck, seen1: set<Deck>, seen2: set<Deck>, fuel: nat): (e: Ending)
    ensures e.Ended? ==> e.winner == 1 || e.winner == 2
    ensures e.Ended? ==> (e.winner == 2 <==> e.p1 == [])
    decreases fuel, 0
  {
    if d1 == [] then Ended(2, d1, d2)
    else if d2 == [] then Ended(1, d1, d2)
    else if d1 in seen1 || d2 in seen2 then Ended(1, d1, d2)
    else if fuel == 0 then Exhausted
    else
      match RoundWinner(d1, d2, fuel - 1)
      case None => Exhausted
      case Some(w) =>
        var r := Award(d1, d2, w);
        RecGame(r.0, r.1, seen1 + {d1}, seen2 + {d2}, fuel - 1)
  }

  /** The early exits of `rec_round`, checked before every round: an empty
      deck for player 1 loses, an empty deck for player 2 wins for player 1,
      and a deck player 1 held before at this level or a deck player 2 held
      before at this level ends the level in player 1's favour. */
  lemma RecGameStops(d1: Deck, d2: Deck, seen1: set<Deck>, seen2: set<Deck>, fuel: nat)
    ensures d1 == [] ==> RecGame(d1, d2, seen1, seen2, fuel) == Ended(2, d1, d2)
    ensures d1 != [] && d2 == [] ==> RecGame(d1, d2, seen1, seen2, fuel) == Ended(1, d1, d2)
    ensures d1 != [] && d2 != [] && (d1 in seen1 || d2 in seen2) ==> RecGame(d1, d2, seen1, seen2, fuel) == Ended(1, d1, d2)
  {
  }

  /** A finished game holds exactly the cards it started with. */
  predicate Conserves(e: Ending, d1: Deck, d2: Deck) {
    e.Ended? ==> multiset(e.p1) + multiset(e.p2) == multiset(d1) + multiset(d2)
  }

  /** The cards held when a level of Recursive Combat ends are exactly the
      cards it started with. */
  lemma {:induction false} RecGameConserves(d1: Deck, d2: Deck, seen1: set<Deck>, seen2: set<Deck>, fuel: nat)
    ensures Conserves(RecGame(d1, d2, seen1, seen2, fuel), d1, d2)
    decreases fuel
  {
    if d1 != [] && d2 != [] && d1 !in seen1 && d2 !in seen2 && fuel > 0 && RoundWinner(d1, d2, fuel - 1).Some? {
      var w := RoundWinner(d1, d2, fuel - 1).value;
      var r := Award(d1, d2, w);
      RecGameConserves(r.0, r.1, seen1 + {d1}, seen2 + {d2}, fuel - 1);
      AwardConserves(d1, d2, w);
      var next := RecGame(r.0, r.1, seen1 + {d1}, seen2 + {d2}, fuel - 1);
      assert RecGame(d1, d2, seen1, seen2, fuel) == next;
    }
  }

  /** Unfolds one round of `RecGame` whose winner is known to be `w`. */
  lemma RecGameStep(d1: Deck, d2: Deck, seen1: set<Deck>, seen2: set<Deck>, fuel: nat, w: nat, e1: Deck, e2: Deck)
    requires d1 != []
    requires d2 != []
    requires d1 !in seen1
    requires d2 !in seen2
    requires fuel > 0
    requires RoundWinner(d1, d2, fuel - 1) == Some(w)
    requires w == 1 ==> e1 == d1[1..] + [d1[0], d2[0]] && e2 == d2[1..]
    requires w == 2 ==> e1 == d1[1..] && e2 == d2[1..] + [d2[0], d1[0]]
    ensures RecGame(d1, d2, seen1, seen2, fuel) == RecGame(e1, e2, seen1 + {d1}, seen2 + {d2}, fuel - 1)
  {
  }

  /** A level whose round cannot be decided for lack of fuel is out of fuel. */
  lemma RecGameOutOfFuel(d1: Deck, d2: Deck, seen1: set<Deck>, seen2: set<Deck>, fuel: nat)
    requires d1 != []
    requires d2 != []
    requires d1 !in seen1
    requires d2 !in seen2
    requires fuel > 0
    requires RoundWinner(d1, d2, fuel - 1) == None
    ensures RecGame(d1, d2, seen1, seen2, fuel) == Exhausted
  {
  }

  /** `rec_round`: plays one level of Recursive Combat on `d1`, `d2` with fresh
      caches and returns the winner together with the decks as they end;
      `None` when the fuel runs out. */
  method RecRound(d1: Deck, d2: Deck, fuel: nat) returns (winner: Option<nat>, p1: Deck, p2: Deck)
    ensures RecGame(d1, d2, {}, {}, fuel) == if winner.Some? then Ended(winner.value, p1, p2) else Exhausted
    decreases fuel, 0
  {
    p1, p2 := d1, d2;
    var cache1: set<Deck> := {};
    var cache2: set<Deck> := {};
    var budget: nat := fuel;
    while true
      invariant budget <= fuel
      invariant RecGame(p1, p2, cache1, cache2, budget) == RecGame(d1, d2, {}, {}, fuel)
      decreases budget
    {
      if p1 == [] {
        return Some(2), p1, p2;
      } else if p2 == [] {
        return Some(1), p1, p2;
      }
      if p1 in cache1 || p2 in cache2 {
        return Some(1), p1, p2;
      }
      if budget == 0 {
        return None, p1, p2;
      }
      ghost var seen1, seen2 := cache1, cache2;
      cache1 := cache1 + {p1};
      cache2 := cache2 + {p2};
      var round := Decide(p1, p2, budget - 1);
      if round.None? {
        RecGameOutOfFuel(p1, p2, seen1, seen2, budget);
        return None, p1, p2;
      }
      var w := round.value;
      ghost var before1, before2 := p1, p2;
      var c1, c2 := p1[0], p2[0];
      p1, p2 := p1[1..], p2[1..];
      if w == 1 {
        p1 := p1 + [c1, c2];
      } else if w == 2 {
        p2 := p2 + [c2, c1];
      } else {
        assert false;
      }
      assert RecGame(p1, p2, cache1, cache2, budget - 1) == RecGame(d1, d2, {}, {}, fuel) by {
        RecGameStep(before1, before2, seen1, seen2, budget, w, p1, p2);
      }
      budget := budget - 1;
    }
  }

  /** Decides a round of Recursive Combat: by a sub-game on copies of the
      next cards when both players hold enough of them, otherwise by the
      higher card. */
  method Decide(d1: Deck, d2: Deck, fuel: nat) returns (w: Option<nat>)
    requires d1 != [] && d2 != []
    ensures w == RoundWinner(d1, d2, fuel)
    decreases fuel, 1
  {
    var c1, c2 := d1[0], d2[0];
    if |d1| - 1 >= c1 && |d2| - 1 >= c2 {
      var sub1, sub2 := d1[1..][..c1], d2[1..][..c2];
      var subWinner, _, _ := RecRound(sub1, sub2, fuel);
      SubGameDecides(d1, d2, fuel);
      assert sub1 == d1[1..1 + c1] && sub2 == d2[1..1 + c2];
      w := subWinner;
    } else {
      w := Some(if c1 > c2 then 1 else 2);
    }
  }

  /** `play_rec`: plays Recursive Combat and scores player 1's deck when
      `rec_round` reports player 1 (or 3), player 2's when it reports 2. */
  method PlayRec(d1: Deck, d2: Deck, fuel: nat) returns (r: Outcome)
    ensures match RecGame(d1, d2, {}, {}, fuel)
            case Ended(w, e1, e2) => r == Scored(Score(if w == 2 then e2 else e1))
            case _ => r == OutOfFuel
  {
    var winner, player1, player2 := RecRound(d1, d2, fuel);
    match winner
    case None =>
      r := OutOfFuel;
    case Some(k) =>
      if k == 1 || k == 3 {
        r := Scored(Score(player1));
      } else if k == 2 {
        r := Scored(Score(player2));
      } else {
        assert false;
        r := Unreachable;
      }
  }

  /** A sub-game won by `w` decides the round for `w`. */
  lemma SubGameWon(d1: Deck, d2: Deck, fuel: nat, s1: Deck, s2: Deck, w: nat, f1: Deck, f2: Deck)
    requires d1 != [] && d2 != [] && SubGameLegal(d1, d2)
    requires s1 == d1[1..1 + d1[0]] && s2 == d2[1..1 + d2[0]]
    requires RecGame(s1, s2, {}, {}, fuel) == Ended(w, f1, f2)
    ensures RoundWinner(d1, d2, fuel) == Some(w)
  {
    SubGameDecides(d1, d2, fuel);
  }

  // The recursive example, a few rounds per lemma. `RecursiveTraceSubN`
  // follows the N-th sub-game of its parent; each lemma asks that the decks
  // still to come have not been seen yet.

  lemma RecursiveTraceFrom0(fuel: nat, seen1: set<Deck>, seen2: set<Deck>)
    requires fuel >= 17
    requires [9, 2, 6, 3, 1] !in seen1
    requires [2, 6, 3, 1, 9, 5] !in seen1
    requires [6, 3, 1, 9, 5] !in seen1
    requires [3, 1, 9, 5, 6, 4] !in seen1
    requires [1, 9, 5, 6, 4] !in seen1
    requires [9, 5, 6, 4] !in seen1
    requires [5, 6, 4, 9, 8] !in seen1
    requires [6, 4, 9, 8, 5, 2] !in seen1
    requires [4, 9, 8, 5, 2] !in seen1
    requires [9, 8, 5, 2] !in seen1
    requires [8, 5, 2] !in seen1
    requires [5, 2, 8, 1] !in seen1
    requires [2, 8, 1] !in seen1
    requires [8, 1] !in seen1
    requires [1, 8, 3] !in seen1
    requires [8, 3] !in seen1
    requires [3] !in seen1
    requires [5, 8, 4, 7, 10] !in seen2
    requires [8, 4, 7, 10] !in seen2
    requires [4, 7, 10, 8, 2] !in seen2
    requires [7, 10, 8, 2] !in seen2
    requires [10, 8, 2, 7, 3] !in seen2
    requires [8, 2, 7, 3, 10, 1] !in seen2
    requires [2, 7, 3, 10, 1] !in seen2
    requires [7, 3, 10, 1] !in seen2
    requires [3, 10, 1, 7, 6] !in seen2
    requires [10, 1, 7, 6, 3, 4] !in seen2
    requires [1, 7, 6, 3, 4, 10, 9] !in seen2
    requires [7, 6, 3, 4, 10, 9] !in seen2
    requires [6, 3, 4, 10, 9, 7, 5] !in seen2
    requires [3, 4, 10, 9, 7, 5, 6, 2] !in seen2
    requires [4, 10, 9, 7, 5, 6, 2] !in seen2
    requires [10, 9, 7, 5, 6, 2, 4, 1] !in seen2
    requires [9, 7, 5, 6, 2, 4, 1, 10, 8] !in seen2
    ensures RecGame([9, 2, 6, 3, 1], [5, 8, 4, 7, 10], seen1, seen2, fuel) == Ended(2, [], [7, 5, 6, 2, 4, 1, 10, 8, 9, 3])
  {
    calc {
      RecGame([9, 2, 6, 3, 1], [5, 8, 4, 7, 10], seen1, seen2, fuel);
      { RecGameStep([9, 2, 6, 3, 1], [5, 8, 4, 7, 10], seen1, seen2, fuel, 1, [2, 6, 3, 1, 9, 5], [8, 4, 7, 10]); }
      RecGame([2, 6, 3, 1, 9, 5], [8, 4, 7, 10], seen1 + {[9, 2, 6, 3, 1]}, seen2 + {[5, 8, 4, 7, 10]}, fuel - 1);
      { RecGameStep([2, 6, 3, 1, 9, 5], [8, 4, 7, 10], seen1 + {[9, 2, 6, 3, 1]}, seen2 + {[5, 8, 4, 7, 10]}, fuel - 1, 2, [6, 3, 1, 9, 5], [4, 7, 10, 8, 2]); }
      RecGame([6, 3, 1, 9, 5], [4, 7, 10, 8, 2], seen1 + {[9, 2, 6, 3, 1]} + {[2, 6, 3, 1, 9, 5]}, seen2 + {[5, 8, 4, 7, 10]} + {[8, 4, 7, 10]}, fuel - 2);
      { RecursiveTraceFrom2(fuel - 2, seen1 + {[9, 2, 6, 3, 1]} + {[2, 6, 3, 1, 9, 5]}, seen2 + {[5, 8, 4, 7, 10]} + {[8, 4, 7, 10]}); }
      Ended(2, [], [7, 5, 6, 2, 4, 1, 10, 8, 9, 3]);
    }
  }

  lemma RecursiveTraceFrom2(fuel: nat, seen1: set<Deck>, seen2: set<Deck>)
    requires fuel >= 15
    requires [6, 3, 1, 9, 5] !in seen1
    requires [3, 1, 9, 5, 6, 4] !in seen1
    requires [1, 9, 5, 6, 4] !in seen1
    requires [9, 5, 6, 4] !in seen1
    requires [5, 6, 4, 9, 8] !in seen1
    requires [6, 4, 9, 8, 5, 2] !in seen1
    requires [4, 9, 8, 5, 2] !in seen1
    requires [9, 8, 5, 2] !in seen1
    requires [8, 5, 2] !in seen1
    requires [5, 2, 8, 1] !in seen1
    requires [2, 8, 1] !in seen1
    requires [8, 1] !in seen1
    requires [1, 8, 3] !in seen1
    requires [8, 3] !in seen1
    requires [3] !in seen1
    requires [4, 7, 10, 8, 2] !in seen2
    requires [7, 10, 8, 2] !in seen2
    requires [10, 8, 2, 7, 3] !in seen2
    requires [8, 2, 7, 3, 10, 1] !in seen2
    requires [2, 7, 3, 10, 1] !in seen2
    requires [7, 3, 10, 1] !in seen2
    requires [3, 10, 1, 7, 6] !in seen2
    requires [10, 1, 7, 6, 3, 4] !in seen2
    requires [1, 7, 6, 3, 4, 10, 9] !in seen2
    requires [7, 6, 3, 4, 10, 9] !in seen2
    requires [6, 3, 4, 10, 9, 7, 5] !in seen2
    requires [3, 4, 10, 9, 7, 5, 6, 2] !in seen2
    requires [4, 10, 9, 7, 5, 6, 2] !in seen2
    requires [10, 9, 7, 5, 6, 2, 4, 1] !in seen2
    requires [9, 7, 5, 6, 2, 4, 1, 10, 8] !in seen2
    ensures RecGame([6, 3, 1, 9, 5], [4, 7, 10, 8, 2], seen1, seen2, fuel) == Ended(2, [], [7, 5, 6, 2, 4, 1, 10, 8, 9, 3])
  {
    calc {
      RecGame([6, 3, 1, 9, 5], [4, 7, 10, 8, 2], seen1, seen2, fuel);
      { RecGameStep([6, 3, 1, 9, 5], [4, 7, 10, 8, 2], seen1, seen2, fuel, 1, [3, 1, 9, 5, 6, 4], [7, 10, 8, 2]); }
      RecGame([3, 1, 9, 5, 6, 4], [7, 10, 8, 2], seen1 + {[6, 3, 1, 9, 5]}, seen2 + {[4, 7, 10, 8, 2]}, fuel - 1);
      { RecGameStep([3, 1, 9, 5, 6, 4], [7, 10, 8, 2], seen1 + {[6, 3, 1, 9, 5]}, seen2 + {[4, 7, 10, 8, 2]}, fuel - 1, 2, [1, 9, 5, 6, 4], [10, 8, 2, 7, 3]); }
      RecGame([1, 9, 5, 6, 4], [10, 8, 2, 7, 3], seen1 + {[6, 3, 1, 9, 5]} + {[3, 1, 9, 5, 6, 4]}, seen2 + {[4, 7, 10, 8, 2]} + {[7, 10, 8, 2]}, fuel - 2);
      { RecursiveTraceFrom4(fuel - 2, seen1 + {[6, 3, 1, 9, 5]} + {[3, 1, 9, 5, 6, 4]}, seen2 + {[4, 7, 10, 8, 2]} + {[7, 10, 8, 2]}); }
      Ended(2, [], [7, 5, 6, 2, 4, 1, 10, 8, 9, 3]);
    }
  }

  lemma RecursiveTraceFrom4(fuel: nat, seen1: set<Deck>, seen2: set<Deck>)
    requires fuel >= 13
    requires [1, 9, 5, 6, 4] !in seen1
    requires [9, 5, 6, 4] !in seen1
    requires [5, 6, 4, 9, 8] !in seen1
    requires [6, 4, 9, 8, 5, 2] !in seen1
    requires [4, 9, 8, 5, 2] !in seen1
    requires [9, 8, 5, 2] !in seen1
    requires [8, 5, 2] !in seen1
    requires [5, 2, 8, 1] !in seen1
    requires [2, 8, 1] !in seen1
    requires [8, 1] !in seen1
    requires [1, 8, 3] !in seen1
    requires [8, 3] !in seen1
    requires [3] !in seen1
    requires [10, 8, 2, 7, 3] !in seen2
    requires [8, 2, 7, 3, 10, 1] !in seen2
    requires [2, 7, 3, 10, 1] !in seen2
    requires [7, 3, 10, 1] !in seen2
    requires [3, 10, 1, 7, 6] !in seen2
    requires [10, 1, 7, 6, 3, 4] !in seen2
    requires [1, 7, 6, 3, 4, 10, 9] !in seen2
    requires [7, 6, 3, 4, 10, 9] !in seen2
    requires [6, 3, 4, 10, 9, 7, 5] !in seen2
    requires [3, 4, 10, 9, 7, 5, 6, 2] !in seen2
    requires [4, 10, 9, 7, 5, 6, 2] !in seen2
    requires [10, 9, 7, 5, 6, 2, 4, 1] !in seen2
    requires [9, 7, 5, 6, 2, 4, 1, 10, 8] !in seen2
    ensures RecGame([1, 9, 5, 6, 4], [10, 8, 2, 7, 3], seen1, seen2, fuel) == Ended(2, [], [7, 5, 6, 2, 4, 1, 10, 8, 9, 3])
  {
    calc {
      RecGame([1, 9, 5, 6, 4], [10, 8, 2, 7, 3], seen1, seen2, fuel);
      { RecGameStep([1, 9, 5, 6, 4], [10, 8, 2, 7, 3], seen1, seen2, fuel, 2, [9, 5, 6, 4], [8, 2, 7, 3, 10, 1]); }
      RecGame([9, 5, 6, 4], [8, 2, 7, 3, 10, 1], seen1 + {[1, 9, 5, 6, 4]}, seen2 + {[10, 8, 2, 7, 3]}, fuel - 1);
      { RecGameStep([9, 5, 6, 4], [8, 2, 7, 3, 10, 1], seen1 + {[1, 9, 5, 6, 4]}, seen2 + {[10, 8, 2, 7, 3]}, fuel - 1, 1, [5, 6, 4, 9, 8], [2, 7, 3, 10, 1]); }
      RecGame([5, 6, 4, 9, 8], [2, 7, 3, 10, 1], seen1 + {[1, 9, 5, 6, 4]} + {[9, 5, 6, 4]}, seen2 + {[10, 8, 2, 7, 3]} + {[8, 2, 7, 3, 10, 1]}, fuel - 2);
      { RecursiveTraceFrom6(fuel - 2, seen1 + {[1, 9, 5, 6, 4]} + {[9, 5, 6, 4]}, seen2 + {[10, 8, 2, 7, 3]} + {[8, 2, 7, 3, 10, 1]}); }
      Ended(2, [], [7, 5, 6, 2, 4, 1, 10, 8, 9, 3]);
    }
  }

  lemma RecursiveTraceFrom6(fuel: nat, seen1: set<Deck>, seen2: set<Deck>)
    requires fuel >= 11
    requires [5, 6, 4, 9, 8] !in seen1
    requires [6, 4, 9, 8, 5, 2] !in seen1
    requires [4, 9, 8, 5, 2] !in seen1
    requires [9, 8, 5, 2] !in seen1
    requires [8, 5, 2] !in seen1
    requires [5, 2, 8, 1] !in seen1
    requires [2, 8, 1] !in seen1
    requires [8, 1] !in seen1
    requires [1, 8, 3] !in seen1
    requires [8, 3] !in seen1
    requires [3] !in seen1
    requires [2, 7, 3, 10, 1] !in seen2
    requires [7, 3, 10, 1] !in seen2
    requires [3, 10, 1, 7, 6] !in seen2
    requires [10, 1, 7, 6, 3, 4] !in seen2
    requires [1, 7, 6, 3, 4, 10, 9] !in seen2
    requires [7, 6, 3, 4, 10, 9] !in seen2
    requires [6, 3, 4, 10, 9, 7, 5] !in seen2
    requires [3, 4, 10, 9, 7, 5, 6, 2] !in seen2
    requires [4, 10, 9, 7, 5, 6, 2] !in seen2
    requires [10, 9, 7, 5, 6, 2, 4, 1] !in seen2
    requires [9, 7, 5, 6, 2, 4, 1, 10, 8] !in seen2
    ensures RecGame([5, 6, 4, 9, 8], [2, 7, 3, 10, 1], seen1, seen2, fuel) == Ended(2, [], [7, 5, 6, 2, 4, 1, 10, 8, 9, 3])
  {
    calc {
      RecGame([5, 6, 4, 9, 8], [2, 7, 3, 10, 1], seen1, seen2, fuel);
      { RecGameStep([5, 6, 4, 9, 8], [2, 7, 3, 10, 1], seen1, seen2, fuel, 1, [6, 4, 9, 8, 5, 2], [7, 3, 10, 1]); }
      RecGame([6, 4, 9, 8, 5, 2], [7, 3, 10, 1], seen1 + {[5, 6, 4, 9, 8]}, seen2 + {[2, 7, 3, 10, 1]}, fuel - 1);
      { RecGameStep([6, 4, 9, 8, 5, 2], [7, 3, 10, 1], seen1 + {[5, 6, 4, 9, 8]}, seen2 + {[2, 7, 3, 10, 1]}, fuel - 1, 2, [4, 9, 8, 5, 2], [3, 10, 1, 7, 6]); }
      RecGame([4, 9, 8, 5, 2], [3, 10, 1, 7, 6], seen1 + {[5, 6, 4, 9, 8]} + {[6, 4, 9, 8, 5, 2]}, seen2 + {[2, 7, 3, 10, 1]} + {[7, 3, 10, 1]}, fuel - 2);
      { RecursiveTraceFrom8(fuel - 2, seen1 + {[5, 6, 4, 9, 8]} + {[6, 4, 9, 8, 5, 2]}, seen2 + {[2, 7, 3, 10, 1]} + {[7, 3, 10, 1]}); }
      Ended(2, [], [7, 5, 6, 2, 4, 1, 10, 8, 9, 3]);
    }
  }

  lemma RecursiveTraceFrom8(fuel: nat, seen1: set<Deck>, seen2: set<Deck>)
    requires fuel >= 9
    requires [4, 9, 8, 5, 2] !in seen1
    requires [9, 8, 5, 2] !in seen1
    requires [8, 5, 2] !in seen1
    requires [5, 2, 8, 1] !in seen1
    requires [2, 8, 1] !in seen1
    requires [8, 1] !in seen1
    requires [1, 8, 3] !in seen1
    requires [8, 3] !in seen1
    requires [3] !in seen1
    requires [3, 10, 1, 7, 6] !in seen2
    requires [10, 1, 7, 6, 3, 4] !in seen2
    requires [1, 7, 6, 3, 4, 10, 9] !in seen2
    requires [7, 6, 3, 4, 10, 9] !in seen2
    requires [6, 3, 4, 10, 9, 7, 5] !in seen2
    requires [3, 4, 10, 9, 7, 5, 6, 2] !in seen2
    requires [4, 10, 9, 7, 5, 6, 2] !in seen2
    requires [10, 9, 7, 5, 6, 2, 4, 1] !in seen2
    requires [9, 7, 5, 6, 2, 4, 1, 10, 8] !in seen2
    ensures RecGame([4, 9, 8, 5, 2], [3, 10, 1, 7, 6], seen1, seen2, fuel) == Ended(2, [], [7, 5, 6, 2, 4, 1, 10, 8, 9, 3])
  {
    calc {
      RecGame([4, 9, 8, 5, 2], [3, 10, 1, 7, 6], seen1, seen2, fuel);
      { RecursiveTraceRound8(fuel - 1); RecGameStep([4, 9, 8, 5, 2], [3, 10, 1, 7, 6], seen1, seen2, fuel, 2, [9, 8, 5, 2], [10, 1, 7, 6, 3, 4]); }
      RecGame([9, 8, 5, 2], [10, 1, 7, 6, 3, 4], seen1 + {[4, 9, 8, 5, 2]}, seen2 + {[3, 10, 1, 7, 6]}, fuel - 1);
      { RecursiveTraceFrom9(fuel - 1, seen1 + {[4, 9, 8, 5, 2]}, seen2 + {[3, 10, 1, 7, 6]}); }
      Ended(2, [], [7, 5, 6, 2, 4, 1, 10, 8, 9, 3]);
    }
  }

  lemma RecursiveTraceFrom9(fuel: nat, seen1: set<Deck>, seen2: set<Deck>)
    requires fuel >= 8
    requires [9, 8, 5, 2] !in seen1
    requires [8, 5, 2] !in seen1
    requires [5, 2, 8, 1] !in seen1
    requires [2, 8, 1] !in seen1
    requires [8, 1] !in seen1
    requires [1, 8, 3] !in seen1
    requires [8, 3] !in seen1
    requires [3] !in seen1
    requires [10, 1, 7, 6, 3, 4] !in seen2
    requires [1, 7, 6, 3, 4, 10, 9] !in seen2
    requires [7, 6, 3, 4, 10, 9] !in seen2
    requires [6, 3, 4, 10, 9, 7, 5] !in seen2
    requires [3, 4, 10, 9, 7, 5, 6, 2] !in seen2
    requires [4, 10, 9, 7, 5, 6, 2] !in seen2
    requires [10, 9, 7, 5, 6, 2, 4, 1] !in seen2
    requires [9, 7, 5, 6, 2, 4, 1, 10, 8] !in seen2
    ensures RecGame([9, 8, 5, 2], [10, 1, 7, 6, 3, 4], seen1, seen2, fuel) == Ended(2, [], [7, 5, 6, 2, 4, 1, 10, 8, 9, 3])
  {
    calc {
      RecGame([9, 8, 5, 2], [10, 1, 7, 6, 3, 4], seen1, seen2, fuel);
      { RecGameStep([9, 8, 5, 2], [10, 1, 7, 6, 3, 4], seen1, seen2, fuel, 2, [8, 5, 2], [1, 7, 6, 3, 4, 10, 9]); }
      RecGame([8, 5, 2], [1, 7, 6, 3, 4, 10, 9], seen1 + {[9, 8, 5, 2]}, seen2 + {[10, 1, 7, 6, 3, 4]}, fuel - 1);
      { RecGameStep([8, 5, 2], [1, 7, 6, 3, 4, 10, 9], seen1 + {[9, 8, 5, 2]}, seen2 + {[10, 1, 7, 6, 3, 4]}, fuel - 1, 1, [5, 2, 8, 1], [7, 6, 3, 4, 10, 9]); }
      RecGame([5, 2, 8, 1], [7, 6, 3, 4, 10, 9], seen1 + {[9, 8, 5, 2]} + {[8, 5, 2]}, seen2 + {[10, 1, 7, 6, 3, 4]} + {[1, 7, 6, 3, 4, 10, 9]}, fuel - 2);
      { RecursiveTraceFrom11(fuel - 2, seen1 + {[9, 8, 5, 2]} + {[8, 5, 2]}, seen2 + {[10, 1, 7, 6, 3, 4]} + {[1, 7, 6, 3, 4, 10, 9]}); }
      Ended(2, [], [7, 5, 6, 2, 4, 1, 10, 8, 9, 3]);
    }
  }

  lemma RecursiveTraceFrom11(fuel: nat, seen1: set<Deck>, seen2: set<Deck>)
    requires fuel >= 6
    requires [5, 2, 8, 1] !in seen1
    requires [2, 8, 1] !in seen1
    requires [8, 1] !in seen1
    requires [1, 8, 3] !in seen1
    requires [8, 3] !in seen1
    requires [3] !in seen1
    requires [7, 6, 3, 4, 10, 9] !in seen2
    requires [6, 3, 4, 10, 9, 7, 5] !in seen2
    requires [3, 4, 10, 9, 7, 5, 6, 2] !in seen2
    requires [4, 10, 9, 7, 5, 6, 2] !in seen2
    requires [10, 9, 7, 5, 6, 2, 4, 1] !in seen2
    requires [9, 7, 5, 6, 2, 4, 1, 10, 8] !in seen2
    ensures RecGame([5, 2, 8, 1], [7, 6, 3, 4, 10, 9], seen1, seen2, fuel) == Ended(2, [], [7, 5, 6, 2, 4, 1, 10, 8, 9, 3])
  {
    calc {
      RecGame([5, 2, 8, 1], [7, 6, 3, 4, 10, 9], seen1, seen2, fuel);
      { RecGameStep([5, 2, 8, 1], [7, 6, 3, 4, 10, 9], seen1, seen2, fuel, 2, [2, 8, 1], [6, 3, 4, 10, 9, 7, 5]); }
      RecGame([2, 8, 1], [6, 3, 4, 10, 9, 7, 5], seen1 + {[5, 2, 8, 1]}, seen2 + {[7, 6, 3, 4, 10, 9]}, fuel - 1);
      { RecursiveTraceFrom12(fuel - 1, seen1 + {[5, 2, 8, 1]}, seen2 + {[7, 6, 3, 4, 10, 9]}); }
      Ended(2, [], [7, 5, 6, 2, 4, 1, 10, 8, 9, 3]);
    }
  }

  lemma RecursiveTraceFrom12(fuel: nat, seen1: set<Deck>, seen2: set<Deck>)
    requires fuel >= 5
    requires [2, 8, 1] !in seen1
    requires [8, 1] !in seen1
    requires [1, 8, 3] !in seen1
    requires [8, 3] !in seen1
    requires [3] !in seen1
    requires [6, 3, 4, 10, 9, 7, 5] !in seen2
    requires [3, 4, 10, 9, 7, 5, 6, 2] !in seen2
    requires [4, 10, 9, 7, 5, 6, 2] !in seen2
    requires [10, 9, 7, 5, 6, 2, 4, 1] !in seen2
    requires [9, 7, 5, 6, 2, 4, 1, 10, 8] !in seen2
    ensures RecGame([2, 8, 1], [6, 3, 4, 10, 9, 7, 5], seen1, seen2, fuel) == Ended(2, [], [7, 5, 6, 2, 4, 1, 10, 8, 9, 3])
  {
    calc {
      RecGame([2, 8, 1], [6, 3, 4, 10, 9, 7, 5], seen1, seen2, fuel);
      { RecursiveTraceRound12(fuel - 1); RecGameStep([2, 8, 1], [6, 3, 4, 10, 9, 7, 5], seen1, seen2, fuel, 2, [8, 1], [3, 4, 10, 9, 7, 5, 6, 2]); }
      RecGame([8, 1], [3, 4, 10, 9, 7, 5, 6, 2], seen1 + {[2, 8, 1]}, seen2 + {[6, 3, 4, 10, 9, 7, 5]}, fuel - 1);
      { RecursiveTraceFrom13(fuel - 1, seen1 + {[2, 8, 1]}, seen2 + {[6, 3, 4, 10, 9, 7, 5]}); }
      Ended(2, [], [7, 5, 6, 2, 4, 1, 10, 8, 9, 3]);
    }
  }

  lemma RecursiveTraceFrom13(fuel: nat, seen1: set<Deck>, seen2: set<Deck>)
    requires fuel >= 4
    requires [8, 1] !in seen1
    requires [1, 8, 3] !in seen1
    requires [8, 3] !in seen1
    requires [3] !in seen1
    requires [3, 4, 10, 9, 7, 5, 6, 2] !in seen2
    requires [4, 10, 9, 7, 5, 6, 2] !in seen2
    requires [10, 9, 7, 5, 6, 2, 4, 1] !in seen2
    requires [9, 7, 5, 6, 2, 4, 1, 10, 8] !in seen2
    ensures RecGame([8, 1], [3, 4, 10, 9, 7, 5, 6, 2], seen1, seen2, fuel) == Ended(2, [], [7, 5, 6, 2, 4, 1, 10, 8, 9, 3])
  {
    calc {
      RecGame([8, 1], [3, 4, 10, 9, 7, 5, 6, 2], seen1, seen2, fuel);
      { RecGameStep([8, 1], [3, 4, 10, 9, 7, 5, 6, 2], seen1, seen2, fuel, 1, [1, 8, 3], [4, 10, 9, 7, 5, 6, 2]); }
      RecGame([1, 8, 3], [4, 10, 9, 7, 5, 6, 2], seen1 + {[8, 1]}, seen2 + {[3, 4, 10, 9, 7, 5, 6, 2]}, fuel - 1);
      { RecursiveTraceFrom14(fuel - 1, seen1 + {[8, 1]}, seen2 + {[3, 4, 10, 9, 7, 5, 6, 2]}); }
      Ended(2, [], [7, 5, 6, 2, 4, 1, 10, 8, 9, 3]);
    }
  }

  lemma RecursiveTraceFrom14(fuel: nat, seen1: set<Deck>, seen2: set<Deck>)
    requires fuel >= 3
    requires [1, 8, 3] !in seen1
    requires [8, 3] !in seen1
    requires [3] !in seen1
    requires [4, 10, 9, 7, 5, 6, 2] !in seen2
    requires [10, 9, 7, 5, 6, 2, 4, 1] !in seen2
    requires [9, 7, 5, 6, 2, 4, 1, 10, 8] !in seen2
    ensures RecGame([1, 8, 3], [4, 10, 9, 7, 5, 6, 2], seen1, seen2, fuel) == Ended(2, [], [7, 5, 6, 2, 4, 1, 10, 8, 9, 3])
  {
    calc {
      RecGame([1, 8, 3], [4, 10, 9, 7, 5, 6, 2], seen1, seen2, fuel);
      { RecursiveTraceRound14(fuel - 1); RecGameStep([1, 8, 3], [4, 10, 9, 7, 5, 6, 2], seen1, seen2, fuel, 2, [8, 3], [10, 9, 7, 5, 6, 2, 4, 1]); }
      RecGame([8, 3], [10, 9, 7, 5, 6, 2, 4, 1], seen1 + {[1, 8, 3]}, seen2 + {[4, 10, 9, 7, 5, 6, 2]}, fuel - 1);
      { RecursiveTraceFrom15(fuel - 1, seen1 + {[1, 8, 3]}, seen2 + {[4, 10, 9, 7, 5, 6, 2]}); }
      Ended(2, [], [7, 5, 6, 2, 4, 1, 10, 8, 9, 3]);
    }
  }

  lemma RecursiveTraceFrom15(fuel: nat, seen1: set<Deck>, seen2: set<Deck>)
    requires fuel >= 2
    requires [8, 3] !in seen1
    requires [3] !in seen1
    requires [10, 9, 7, 5, 6, 2, 4, 1] !in seen2
    requires [9, 7, 5, 6, 2, 4, 1, 10, 8] !in seen2
    ensures RecGame([8, 3], [10, 9, 7, 5, 6, 2, 4, 1], seen1, seen2, fuel) == Ended(2, [], [7, 5, 6, 2, 4, 1, 10, 8, 9, 3])
  {
    calc {
      RecGame([8, 3], [10, 9, 7, 5, 6, 2, 4, 1], seen1, seen2, fuel);
      { RecGameStep([8, 3], [10, 9, 7, 5, 6, 2, 4, 1], seen1, seen2, fuel, 2, [3], [9, 7, 5, 6, 2, 4, 1, 10, 8]); }
      RecGame([3], [9, 7, 5, 6, 2, 4, 1, 10, 8], seen1 + {[8, 3]}, seen2 + {[10, 9, 7, 5, 6, 2, 4, 1]}, fuel - 1);
      { RecGameStep([3], [9, 7, 5, 6, 2, 4, 1, 10, 8], seen1 + {[8, 3]}, seen2 + {[10, 9, 7, 5, 6, 2, 4, 1]}, fuel - 1, 2, [], [7, 5, 6, 2, 4, 1, 10, 8, 9, 3]); }
      RecGame([], [7, 5, 6, 2, 4, 1, 10, 8, 9, 3], seen1 + {[8, 3]} + {[3]}, seen2 + {[10, 9, 7, 5, 6, 2, 4, 1]} + {[9, 7, 5, 6, 2, 4, 1, 10, 8]}, fuel - 2);
      Ended(2, [], [7, 5, 6, 2, 4, 1, 10, 8, 9, 3]);
    }
  }

  lemma RecursiveTraceSub1From0(fuel: nat, seen1: set<Deck>, seen2: set<Deck>)
    requires fuel >= 6
    requires [9, 8, 5, 2] !in seen1
    requires [8, 5, 2] !in seen1
    requires [5, 2, 8, 1] !in seen1
    requires [2, 8, 1] !in seen1
    requires [8, 1] !in seen1
    requires [1] !in seen1
    requires [10, 1, 7] !in seen2
    requires [1, 7, 10, 9] !in seen2
    requires [7, 10, 9] !in seen2
    requires [10, 9, 7, 5] !in seen2
    requires [9, 7, 5, 10, 2] !in seen2
    requires [7, 5, 10, 2, 9, 8] !in seen2
    ensures RecGame([9, 8, 5, 2], [10, 1, 7], seen1, seen2, fuel) == Ended(2, [], [5, 10, 2, 9, 8, 7, 1])
  {
    calc {
      RecGame([9, 8, 5, 2], [10, 1, 7], seen1, seen2, fuel);
      { RecGameStep([9, 8, 5, 2], [10, 1, 7], seen1, seen2, fuel, 2, [8, 5, 2], [1, 7, 10, 9]); }
      RecGame([8, 5, 2], [1, 7, 10, 9], seen1 + {[9, 8, 5, 2]}, seen2 + {[10, 1, 7]}, fuel - 1);
      { RecGameStep([8, 5, 2], [1, 7, 10, 9], seen1 + {[9, 8, 5, 2]}, seen2 + {[10, 1, 7]}, fuel - 1, 1, [5, 2, 8, 1], [7, 10, 9]); }
      RecGame([5, 2, 8, 1], [7, 10, 9], seen1 + {[9, 8, 5, 2]} + {[8, 5, 2]}, seen2 + {[10, 1, 7]} + {[1, 7, 10, 9]}, fuel - 2);
      { RecursiveTraceSub1From2(fuel - 2, seen1 + {[9, 8, 5, 2]} + {[8, 5, 2]}, seen2 + {[10, 1, 7]} + {[1, 7, 10, 9]}); }
      Ended(2, [], [5, 10, 2, 9, 8, 7, 1]);
    }
  }

  lemma RecursiveTraceSub1From2(fuel: nat, seen1: set<Deck>, seen2: set<Deck>)
    requires fuel >= 4
    requires [5, 2, 8, 1] !in seen1
    requires [2, 8, 1] !in seen1
    requires [8, 1] !in seen1
    requires [1] !in seen1
    requires [7, 10, 9] !in seen2
    requires [10, 9, 7, 5] !in seen2
    requires [9, 7, 5, 10, 2] !in seen2
    requires [7, 5, 10, 2, 9, 8] !in seen2
    ensures RecGame([5, 2, 8, 1], [7, 10, 9], seen1, seen2, fuel) == Ended(2, [], [5, 10, 2, 9, 8, 7, 1])
  {
    calc {
      RecGame([5, 2, 8, 1], [7, 10, 9], seen1, seen2, fuel);
      { RecGameStep([5, 2, 8, 1], [7, 10, 9], seen1, seen2, fuel, 2, [2, 8, 1], [10, 9, 7, 5]); }
      RecGame([2, 8, 1], [10, 9, 7, 5], seen1 + {[5, 2, 8, 1]}, seen2 + {[7, 10, 9]}, fuel - 1);
      { RecGameStep([2, 8, 1], [10, 9, 7, 5], seen1 + {[5, 2, 8, 1]}, seen2 + {[7, 10, 9]}, fuel - 1, 2, [8, 1], [9, 7, 5, 10, 2]); }
      RecGame([8, 1], [9, 7, 5, 10, 2], seen1 + {[5, 2, 8, 1]} + {[2, 8, 1]}, seen2 + {[7, 10, 9]} + {[10, 9, 7, 5]}, fuel - 2);
      { RecursiveTraceSub1From4(fuel - 2, seen1 + {[5, 2, 8, 1]} + {[2, 8, 1]}, seen2 + {[7, 10, 9]} + {[10, 9, 7, 5]}); }
      Ended(2, [], [5, 10, 2, 9, 8, 7, 1]);
    }
  }

  lemma RecursiveTraceSub1From4(fuel: nat, seen1: set<Deck>, seen2: set<Deck>)
    requires fuel >= 2
    requires [8, 1] !in seen1
    requires [1] !in seen1
    requires [9, 7, 5, 10, 2] !in seen2
    requires [7, 5, 10, 2, 9, 8] !in seen2
    ensures RecGame([8, 1], [9, 7, 5, 10, 2], seen1, seen2, fuel) == Ended(2, [], [5, 10, 2, 9, 8, 7, 1])
  {
    calc {
      RecGame([8, 1], [9, 7, 5, 10, 2], seen1, seen2, fuel);
      { RecGameStep([8, 1], [9, 7, 5, 10, 2], seen1, seen2, fuel, 2, [1], [7, 5, 10, 2, 9, 8]); }
      RecGame([1], [7, 5, 10, 2, 9, 8], seen1 + {[8, 1]}, seen2 + {[9, 7, 5, 10, 2]}, fuel - 1);
      { RecGameStep([1], [7, 5, 10, 2, 9, 8], seen1 + {[8, 1]}, seen2 + {[9, 7, 5, 10, 2]}, fuel - 1, 2, [], [5, 10, 2, 9, 8, 7, 1]); }
      RecGame([], [5, 10, 2, 9, 8, 7, 1], seen1 + {[8, 1]} + {[1]}, seen2 + {[9, 7, 5, 10, 2]} + {[7, 5, 10, 2, 9, 8]}, fuel - 2);
      Ended(2, [], [5, 10, 2, 9, 8, 7, 1]);
    }
  }

  lemma RecursiveTraceSub2From0(fuel: nat, seen1: set<Deck>, seen2: set<Deck>)
    requires fuel >= 4
    requires [8, 1] !in seen1
    requires [1, 8, 3] !in seen1
    requires [8, 3] !in seen1
    requires [3] !in seen1
    requires [3, 4, 10, 9, 7, 5] !in seen2
    requires [4, 10, 9, 7, 5] !in seen2
    requires [10, 9, 7, 5, 4, 1] !in seen2
    requires [9, 7, 5, 4, 1, 10, 8] !in seen2
    ensures RecGame([8, 1], [3, 4, 10, 9, 7, 5], seen1, seen2, fuel) == Ended(2, [], [7, 5, 4, 1, 10, 8, 9, 3])
  {
    calc {
      RecGame([8, 1], [3, 4, 10, 9, 7, 5], seen1, seen2, fuel);
      { RecGameStep([8, 1], [3, 4, 10, 9, 7, 5], seen1, seen2, fuel, 1, [1, 8, 3], [4, 10, 9, 7, 5]); }
      RecGame([1, 8, 3], [4, 10, 9, 7, 5], seen1 + {[8, 1]}, seen2 + {[3, 4, 10, 9, 7, 5]}, fuel - 1);
      { RecursiveTraceSub2From1(fuel - 1, seen1 + {[8, 1]}, seen2 + {[3, 4, 10, 9, 7, 5]}); }
      Ended(2, [], [7, 5, 4, 1, 10, 8, 9, 3]);
    }
  }

  lemma RecursiveTraceSub2From1(fuel: nat, seen1: set<Deck>, seen2: set<Deck>)
    requires fuel >= 3
    requires [1, 8, 3] !in seen1
    requires [8, 3] !in seen1
    requires [3] !in seen1
    requires [4, 10, 9, 7, 5] !in seen2
    requires [10, 9, 7, 5, 4, 1] !in seen2
    requires [9, 7, 5, 4, 1, 10, 8] !in seen2
    ensures RecGame([1, 8, 3], [4, 10, 9, 7, 5], seen1, seen2, fuel) == Ended(2, [], [7, 5, 4, 1, 10, 8, 9, 3])
  {
    calc {
      RecGame([1, 8, 3], [4, 10, 9, 7, 5], seen1, seen2, fuel);
      { RecursiveTraceSub2Round1(fuel - 1); RecGameStep([1, 8, 3], [4, 10, 9, 7, 5], seen1, seen2, fuel, 2, [8, 3], [10, 9, 7, 5, 4, 1]); }
      RecGame([8, 3], [10, 9, 7, 5, 4, 1], seen1 + {[1, 8, 3]}, seen2 + {[4, 10, 9, 7, 5]}, fuel - 1);
      { RecursiveTraceSub2From2(fuel - 1, seen1 + {[1, 8, 3]}, seen2 + {[4, 10, 9, 7, 5]}); }
      Ended(2, [], [7, 5, 4, 1, 10, 8, 9, 3]);
    }
  }

  lemma RecursiveTraceSub2From2(fuel: nat, seen1: set<Deck>, seen2: set<Deck>)
    requires fuel >= 2
    requires [8, 3] !in seen1
    requires [3] !in seen1
    requires [10, 9, 7, 5, 4, 1] !in seen2
    requires [9, 7, 5, 4, 1, 10, 8] !in seen2
    ensures RecGame([8, 3], [10, 9, 7, 5, 4, 1], seen1, seen2, fuel) == Ended(2, [], [7, 5, 4, 1, 10, 8, 9, 3])
  {
    calc {
      RecGame([8, 3], [10, 9, 7, 5, 4, 1], seen1, seen2, fuel);
      { RecGameStep([8, 3], [10, 9, 7, 5, 4, 1], seen1, seen2, fuel, 2, [3], [9, 7, 5, 4, 1, 10, 8]); }
      RecGame([3], [9, 7, 5, 4, 1, 10, 8], seen1 + {[8, 3]}, seen2 + {[10, 9, 7, 5, 4, 1]}, fuel - 1);
      { RecGameStep([3], [9, 7, 5, 4, 1, 10, 8], seen1 + {[8, 3]}, seen2 + {[10, 9, 7, 5, 4, 1]}, fuel - 1, 2, [], [7, 5, 4, 1, 10, 8, 9, 3]); }
      RecGame([], [7, 5, 4, 1, 10, 8, 9, 3], seen1 + {[8, 3]} + {[3]}, seen2 + {[10, 9, 7, 5, 4, 1]} + {[9, 7, 5, 4, 1, 10, 8]}, fuel - 2);
      Ended(2, [], [7, 5, 4, 1, 10, 8, 9, 3]);
    }
  }

  /** The sub-game `[8]` against `[10, 9, 7, 5]`, which the example reaches
      twice. */
  lemma RecursiveTraceShortSubGame(fuel: nat, seen1: set<Deck>, seen2: set<Deck>)
    requires fuel >= 1
    requires [8] !in seen1
    requires [10, 9, 7, 5] !in seen2
    ensures RecGame([8], [10, 9, 7, 5], seen1, seen2, fuel) == Ended(2, [], [9, 7, 5, 10, 8])
  {
    calc {
      RecGame([8], [10, 9, 7, 5], seen1, seen2, fuel);
      { RecGameStep([8], [10, 9, 7, 5], seen1, seen2, fuel, 2, [], [9, 7, 5, 10, 8]); }
      RecGame([], [9, 7, 5, 10, 8], seen1 + {[8]}, seen2 + {[10, 9, 7, 5]}, fuel - 1);
      Ended(2, [], [9, 7, 5, 10, 8]);
    }
  }

  lemma RecursiveTraceRound8(fuel: nat)
    requires fuel >= 6
    ensures RoundWinner([4, 9, 8, 5, 2], [3, 10, 1, 7, 6], fuel) == Some(2)
  {
    RecursiveTraceSub1From0(fuel, {}, {});
    SubGameWon([4, 9, 8, 5, 2], [3, 10, 1, 7, 6], fuel, [9, 8, 5, 2], [10, 1, 7], 2, [], [5, 10, 2, 9, 8, 7, 1]);
  }

  lemma RecursiveTraceRound12(fuel: nat)
    requires fuel >= 4
    ensures RoundWinner([2, 8, 1], [6, 3, 4, 10, 9, 7, 5], fuel) == Some(2)
  {
    RecursiveTraceSub2From0(fuel, {}, {});
    SubGameWon([2, 8, 1], [6, 3, 4, 10, 9, 7, 5], fuel, [8, 1], [3, 4, 10, 9, 7, 5], 2, [], [7, 5, 4, 1, 10, 8, 9, 3]);
  }

  lemma RecursiveTraceRound14(fuel: nat)
    requires fuel >= 1
    ensures RoundWinner([1, 8, 3], [4, 10, 9, 7, 5, 6, 2], fuel) == Some(2)
  {
    RecursiveTraceShortSubGame(fuel, {}, {});
    SubGameWon([1, 8, 3], [4, 10, 9, 7, 5, 6, 2], fuel, [8], [10, 9, 7, 5], 2, [], [9, 7, 5, 10, 8]);
  }

  lemma RecursiveTraceSub2Round1(fuel: nat)
    requires fuel >= 1
    ensures RoundWinner([1, 8, 3], [4, 10, 9, 7, 5], fuel) == Some(2)
  {
    RecursiveTraceShortSubGame(fuel, {}, {});
    SubGameWon([1, 8, 3], [4, 10, 9, 7, 5], fuel, [8], [10, 9, 7, 5], 2, [], [9, 7, 5, 10, 8]);
  }

  /** On the decks of the source's test, Recursive Combat ends with player 2
      holding every card, and `play_rec` then scores 291. */
  lemma RecursiveExample(fuel: nat)
    requires fuel >= 17
    ensures RecGame([9, 2, 6, 3, 1], [5, 8, 4, 7, 10], {}, {}, fuel)
            == Ended(2, [], [7, 5, 6, 2, 4, 1, 10, 8, 9, 3])
    ensures Score([7, 5, 6, 2, 4, 1, 10, 8, 9, 3]) == 291
  {
    RecursiveTraceFrom0(fuel, {}, {});
    RecursiveScoreExample();
  }

  lemma SimpleScoreExample()
    ensures Score([3, 2, 10, 6, 8, 5, 9, 4, 7, 1]) == 306
  {
    ScoreByPosition([3, 2, 10, 6, 8, 5, 9, 4, 7, 1]);
    SimpleScoreExampleWeighted();
  }

  lemma SimpleScoreExampleWeighted()
    ensures FrontWeighted([3, 2, 10, 6, 8, 5, 9, 4, 7, 1]) == 306
  {
    assert [1][1..] == [];
    assert FrontWeighted([1]) == 1;
    assert [7, 1][1..] == [1];
    assert FrontWeighted([7, 1]) == 15;
    assert [4, 7, 1][1..] == [7, 1];
    assert FrontWeighted([4, 7, 1]) == 27;
    assert [9, 4, 7, 1][1..] == [4, 7, 1];
    assert FrontWeighted([9, 4, 7, 1]) == 63;
    assert [5, 9, 4, 7, 1][1..] == [9, 4, 7, 1];
    assert FrontWeighted([5, 9, 4, 7, 1]) == 88;
    assert [8, 5, 9, 4, 7, 1][1..] == [5, 9, 4, 7, 1];
    assert FrontWeighted([8, 5, 9, 4, 7, 1]) == 136;
    assert [6, 8, 5, 9, 4, 7, 1][1..] == [8, 5, 9, 4, 7, 1];
    assert FrontWeighted([6, 8, 5, 9, 4, 7, 1]) == 178;
    assert [10, 6, 8, 5, 9, 4, 7, 1][1..] == [6, 8, 5, 9, 4, 7, 1];
    assert FrontWeighted([10, 6, 8, 5, 9, 4, 7, 1]) == 258;
    assert [2, 10, 6, 8, 5, 9, 4, 7, 1][1..] == [10, 6, 8, 5, 9, 4, 7, 1];
    assert FrontWeighted([2, 10, 6, 8, 5, 9, 4, 7, 1]) == 276;
    assert [3, 2, 10, 6, 8, 5, 9, 4, 7, 1][1..] == [2, 10, 6, 8, 5, 9, 4, 7, 1];
    assert FrontWeighted([3, 2, 10, 6, 8, 5, 9, 4, 7, 1]) == 306;
  }

  lemma RecursiveScoreExample()
    ensures Score([7, 5, 6, 2, 4, 1, 10, 8, 9, 3]) == 291
  {
    ScoreByPosition([7, 5, 6, 2, 4, 1, 10, 8, 9, 3]);
    RecursiveScoreExampleWeighted();
  }

  lemma RecursiveScoreExampleWeighted()
    ensures FrontWeighted([7, 5, 6, 2, 4, 1, 10, 8, 9, 3]) == 291
  {
    assert [3][1..] == [];
    assert FrontWeighted([3]) == 3;
    assert [9, 3][1..] == [3];
    assert FrontWeighted([9, 3]) == 21;
    assert [8, 9, 3][1..] == [9, 3];
    assert FrontWeighted([8, 9, 3]) == 45;
    assert [10, 8, 9, 3][1..] == [8, 9, 3];
    assert FrontWeighted([10, 8, 9, 3]) == 85;
    assert [1, 10, 8, 9, 3][1..] == [10, 8, 9, 3];
    assert FrontWeighted([1, 10, 8, 9, 3]) == 90;
    assert [4, 1, 10, 8, 9, 3][1..] == [1, 10, 8, 9, 3];
    assert FrontWeighted([4, 1, 10, 8, 9, 3]) == 114;
    assert [2, 4, 1, 10, 8, 9, 3][1..] == [4, 1, 10, 8, 9, 3];
    assert FrontWeighted([2, 4, 1, 10, 8, 9, 3]) == 128;
    assert [6, 2, 4, 1, 10, 8, 9, 3][1..] == [2, 4, 1, 10, 8, 9, 3];
    assert FrontWeighted([6, 2, 4, 1, 10, 8, 9, 3]) == 176;
    assert [5, 6, 2, 4, 1, 10, 8, 9, 3][1..] == [6, 2, 4, 1, 10, 8, 9, 3];
    assert FrontWeighted([5, 6, 2, 4, 1, 10, 8, 9, 3]) == 221;
    assert [7, 5, 6, 2, 4, 1, 10, 8, 9, 3][1..] == [5, 6, 2, 4, 1, 10, 8, 9, 3];
    assert FrontWeighted([7, 5, 6, 2, 4, 1, 10, 8, 9, 3]) == 291;
  }

}
