/** The rules of the card games, as values: blackjack hand valuation, the
    dealer's drawing rule, per-hand settlement, bet validation, the
    high-low guess and cash-out multipliers, and the quick games' payout
    tables. The table of running games that uses them is in module Casino. */
module Blackjack {
  import opened Util
  import opened Cards

  // ---------------------------------------------------------------------
  // Hand valuation

  /** Sum of the cards' base values (every ace counted as 11). */
  function RawTotal(cards: seq<Card>): (t: int)
    ensures 2 * |cards| <= t <= 11 * |cards|
  {
    if cards == [] then 0 else RawTotal(cards[..|cards| - 1]) + CardValue(cards[|cards| - 1])
  }

  function AceCount(cards: seq<Card>): (n: nat)
    ensures n <= |cards|
  {
    if cards == [] then 0
    else AceCount(cards[..|cards| - 1]) + (if cards[|cards| - 1].rank == Ace then 1 else 0)
  }

  /** The total with every ace counted as 1. */
  function HardTotal(cards: seq<Card>): int
  {
    RawTotal(cards) - 10 * AceCount(cards)
  }

  lemma {:induction false} HardTotalAtLeastCount(cards: seq<Card>)
    ensures HardTotal(cards) >= |cards|
  {
    if cards != [] {
      HardTotalAtLeastCount(cards[..|cards| - 1]);
    }
  }

  lemma AppendCard(cards: seq<Card>, c: Card)
    ensures RawTotal(cards + [c]) == RawTotal(cards) + CardValue(c)
    ensures AceCount(cards + [c]) == AceCount(cards) + (if c.rank == Ace then 1 else 0)
    ensures HardTotal(cards + [c]) >= HardTotal(cards) + 1
  {
    assert (cards + [c])[..|cards|] == cards;
  }

  /** Count aces as 1 instead of 11, one at a time, while the total is over 21. */
  function Demote(total: int, aces: nat): int
    decreases aces
  {
    if total > 21 && aces > 0 then Demote(total - 10, aces - 1) else total
  }

  /** The best value of a hand. */
  function HandValue(cards: seq<Card>): int
  {
    Demote(RawTotal(cards), AceCount(cards))
  }

  /** Demotion takes off 10 per demoted ace, no more aces than there are,
      and stops as soon as the total is 21 or less. */
  lemma {:induction false} DemoteFacts(total: int, aces: nat)
    ensures var v := Demote(total, aces);
      total - 10 * aces <= v <= total
      && (total - v) % 10 == 0
      && (v > 21 ==> v == total - 10 * aces)
      && (v < total ==> v > 11)
    decreases aces
  {
    if total > 21 && aces > 0 {
      DemoteFacts(total - 10, aces - 1);
    }
  }

  /** The value is the raw sum less 10 for each of k demoted aces, where an
      ace is demoted only while the total is above 21: a bust hand has had
      every ace demoted, and the last demotion was needed. */
  lemma HandValueCharacterization(cards: seq<Card>)
    ensures var v := HandValue(cards);
      exists k :: 0 <= k <= AceCount(cards) && v == RawTotal(cards) - 10 * k
        && (k < AceCount(cards) ==> v <= 21)
        && (k > 0 ==> v + 10 > 21)
  {
    var raw, aces := RawTotal(cards), AceCount(cards);
    var v := HandValue(cards);
    DemoteFacts(raw, aces);
    var k := (raw - v) / 10;
    assert v == raw - 10 * k;
  }

  lemma HandValueAtLeastHard(cards: seq<Card>)
    ensures HardTotal(cards) <= HandValue(cards) <= RawTotal(cards)
  {
    DemoteFacts(RawTotal(cards), AceCount(cards));
  }

  /** get_value: the raw sum, then a decrementing loop over aces. */
  method GetValue(cards: seq<Card>) returns (total: int)
    ensures total == HandValue(cards)
  {
    total := RawTotal(cards);
    var aces := AceCount(cards);
    while total > 21 && aces > 0
      invariant Demote(total, aces) == HandValue(cards)
      decreases aces
    {
      total := total - 10;
      aces := aces - 1;
    }
  }

  predicate IsBust(cards: seq<Card>) { HandValue(cards) > 21 }

  /** A natural: two cards worth 21. */
  predicate IsBlackjack(cards: seq<Card>) { |cards| == 2 && HandValue(cards) == 21 }

  /** A natural is exactly an ace together with a ten-valued card. */
  lemma NaturalIffAceAndTen(cards: seq<Card>)
    ensures IsBlackjack(cards) <==>
      (|cards| == 2
       && ((cards[0].rank == Ace && CardValue(cards[1]) == 10)
           || (CardValue(cards[0]) == 10 && cards[1].rank == Ace)))
  {
    if |cards| == 2 {
      assert cards[..1][..0] == [];
      assert cards[..1] == [cards[0]];
      assert RawTotal(cards) == CardValue(cards[0]) + CardValue(cards[1]);
      assert AceCount(cards) == (if cards[0].rank == Ace then 1 else 0) + (if cards[1].rank == Ace then 1 else 0);
    }
  }

  /** Worked example: two aces and a nine make 21 with one ace demoted,
      and two aces alone make 12. */
  lemma ExampleSoftHands()
    ensures HandValue([Card(Spades, Ace), Card(Hearts, Ace), Card(Clubs, Pip(9))]) == 21
    ensures HandValue([Card(Spades, Ace), Card(Hearts, Ace)]) == 12
  {
    var h1 := [Card(Spades, Ace), Card(Hearts, Ace), Card(Clubs, Pip(9))];
    assert h1[..2][..1][..0] == [] && h1[..2][..1] == [h1[0]] && h1[..2] == [h1[0], h1[1]];
    assert RawTotal(h1[..2]) == 22 && AceCount(h1[..2]) == 2;
    assert RawTotal(h1) == 31 && AceCount(h1) == 2;
  }

  /** Worked example: king, queen, five is bust, and ace, jack is a natural. */
  lemma ExampleHardHands()
    ensures IsBust([Card(Spades, King), Card(Hearts, Queen), Card(Clubs, Pip(5))])
    ensures IsBlackjack([Card(Diamonds, Ace), Card(Clubs, Jack)])
  {
    var h3 := [Card(Spades, King), Card(Hearts, Queen), Card(Clubs, Pip(5))];
    assert h3[..2][..1][..0] == [] && h3[..2][..1] == [h3[0]] && h3[..2] == [h3[0], h3[1]];
    assert RawTotal(h3[..2]) == 20 && AceCount(h3[..2]) == 0;
    assert RawTotal(h3) == 25 && AceCount(h3) == 0;
    var h4 := [Card(Diamonds, Ace), Card(Clubs, Jack)];
    assert h4[..1][..0] == [] && h4[..1] == [h4[0]];
  }

  // ---------------------------------------------------------------------
  // Player hands

  datatype Hand = Hand(cards: seq<Card>, bet: int, doubled: bool)

  function AddCard(h: Hand, c: Card): Hand
  {
    h.(cards := h.cards + [c])
  }

  predicate CanDouble(h: Hand) { |h.cards| == 2 && !h.doubled }

  // ---------------------------------------------------------------------
  // The dealer

  /** The dealer's play: draw while the hand is worth less than 17. Returns
      the final dealer cards and the deck left behind. */
  function DealerPlay(hand: seq<Card>, deck: seq<Card>, order: seq<Card>): (r: (seq<Card>, seq<Card>))
    requires |order| > 0
    decreases 17 - HardTotal(hand)
  {
    if HandValue(hand) >= 17 then (hand, deck)
    else
      var d := DrawFrom(deck, order);
      HandValueAtLeastHard(hand);
      AppendCard(hand, d.0);
      DealerPlay(hand + [d.0], d.1, order)
  }

  /** The dealer ends on 17 or more, keeps the cards it had, and stops at the
      first point its hand is worth 17 or more. */
  lemma {:induction false} DealerStandsOnSeventeen(hand: seq<Card>, deck: seq<Card>, order: seq<Card>)
    requires |order| > 0
    ensures var f := DealerPlay(hand, deck, order).0;
      |f| >= |hand| && f[..|hand|] == hand && HandValue(f) >= 17
      && forall k :: |hand| <= k < |f| ==> HandValue(f[..k]) < 17
    decreases 17 - HardTotal(hand)
  {
    if HandValue(hand) < 17 {
      var d := DrawFrom(deck, order);
      var next := hand + [d.0];
      HandValueAtLeastHard(hand);
      AppendCard(hand, d.0);
      DealerStandsOnSeventeen(next, d.1, order);
      var f := DealerPlay(next, d.1, order).0;
      assert f == DealerPlay(hand, deck, order).0;
      assert f[..|next|] == next;
      assert f[..|hand|] == next[..|hand|] == hand;
      forall k | |hand| <= k < |f|
        ensures HandValue(f[..k]) < 17
      {
        if k == |hand| {
          assert f[..k] == hand;
        }
      }
    }
  }

  /** The deck the dealer leaves still holds cards of one full deck only. */
  lemma {:induction false} DealerPlayKeepsDeck(hand: seq<Card>, deck: seq<Card>, order: seq<Card>)
    requires IsShuffle(order) && multiset(deck) <= multiset(FullDeck())
    ensures multiset(DealerPlay(hand, deck, order).1) <= multiset(FullDeck())
    decreases 17 - HardTotal(hand)
  {
    if HandValue(hand) < 17 {
      var d := DrawFrom(deck, order);
      HandValueAtLeastHard(hand);
      AppendCard(hand, d.0);
      DrawKeepsSubDeck(deck, order);
      DealerPlayKeepsDeck(hand + [d.0], d.1, order);
    }
  }

  // ---------------------------------------------------------------------
  // Settlement

  /** int(bet * 2.5) for a non-negative bet. */
  function NaturalWin(bet: int): int
  {
    (5 * bet) / 2
  }

  /** What a finished hand pays back against the dealer's final cards. */
  function HandPayout(h: Hand, dealer: seq<Card>): int
  {
    if IsBust(h.cards) then 0
    else if IsBust(dealer) || HandValue(h.cards) > HandValue(dealer) then
      (if IsBlackjack(h.cards) then NaturalWin(h.bet) else 2 * h.bet)
    else if HandValue(h.cards) < HandValue(dealer) then 0
    else h.bet
  }

  /** The player beats the dealer: not bust, and the dealer is bust or lower. */
  predicate Beats(h: seq<Card>, dealer: seq<Card>)
  {
    !IsBust(h) && (IsBust(dealer) || HandValue(h) > HandValue(dealer))
  }

  predicate Pushes(h: seq<Card>, dealer: seq<Card>)
  {
    !IsBust(h) && !IsBust(dealer) && HandValue(h) == HandValue(dealer)
  }

  /** For a positive bet the payout is more than the stake exactly when the
      player wins, the stake exactly on a push, and nothing exactly when
      the player loses; a player bust loses even against a bust dealer. */
  lemma PayoutMatchesOutcome(h: Hand, dealer: seq<Card>)
    requires h.bet > 0
    ensures HandPayout(h, dealer) > h.bet <==> Beats(h.cards, dealer)
    ensures HandPayout(h, dealer) == h.bet <==> Pushes(h.cards, dealer)
    ensures HandPayout(h, dealer) == 0 <==> !Beats(h.cards, dealer) && !Pushes(h.cards, dealer)
    ensures IsBust(h.cards) ==> HandPayout(h, dealer) == 0
    ensures Beats(h.cards, dealer) && !IsBlackjack(h.cards) ==> HandPayout(h, dealer) == 2 * h.bet
  {
  }

  /** Total paid back for all hands. */
  function TotalPayout(hands: seq<Hand>, dealer: seq<Card>): int
  {
    if hands == [] then 0
    else TotalPayout(hands[..|hands| - 1], dealer) + HandPayout(hands[|hands| - 1], dealer)
  }

  /** With no negative bet, no hand pays back a negative amount, and the
      total is at least what any single hand pays. */
  lemma {:induction false} TotalPayoutBounds(hands: seq<Hand>, dealer: seq<Card>)
    requires forall i :: 0 <= i < |hands| ==> hands[i].bet >= 0
    ensures TotalPayout(hands, dealer) >= 0
    ensures forall i :: 0 <= i < |hands| ==> TotalPayout(hands, dealer) >= HandPayout(hands[i], dealer)
  {
    if hands != [] {
      var init := hands[..|hands| - 1];
      TotalPayoutBounds(init, dealer);
      forall i | 0 <= i < |hands|
        ensures TotalPayout(hands, dealer) >= HandPayout(hands[i], dealer)
      {
        if i < |hands| - 1 {
          assert hands[i] == init[i];
        }
      }
    }
  }

  /** With no negative bet, the game pays nothing exactly when every hand
      pays nothing: one hand's winnings are never cancelled by another's. */
  lemma {:induction false} TotalPayoutZeroIffAllLose(hands: seq<Hand>, dealer: seq<Card>)
    requires forall i :: 0 <= i < |hands| ==> hands[i].bet >= 0
    ensures TotalPayout(hands, dealer) == 0 <==> forall i :: 0 <= i < |hands| ==> HandPayout(hands[i], dealer) == 0
  {
    if hands != [] {
      var init := hands[..|hands| - 1];
      TotalPayoutZeroIffAllLose(init, dealer);
      TotalPayoutBounds(init, dealer);
      var last := hands[|hands| - 1];
      assert HandPayout(last, dealer) >= 0;
      if TotalPayout(hands, dealer) == 0 {
        forall i | 0 <= i < |hands|
          ensures HandPayout(hands[i], dealer) == 0
        {
          if i < |hands| - 1 {
            assert hands[i] == init[i];
          }
        }
      }
      if forall i :: 0 <= i < |hands| ==> HandPayout(hands[i], dealer) == 0 {
        forall i | 0 <= i < |init|
          ensures HandPayout(init[i], dealer) == 0
        {
          assert init[i] == hands[i];
        }
      }
    }
  }

  // ---------------------------------------------------------------------
  // Bets

  const MinBet: int := 10
  const MaxBet: int := 10000

  datatype BetError = BelowMinimum | AboveMaximum | NotEnoughCredits(credits: int)

  /** The bet checks, in validate_bet's order: minimum, maximum, balance. */
  function ValidateBet(bet: int, credits: int): (r: Option<BetError>)
    ensures r.None? <==> MinBet <= bet <= MaxBet && bet <= credits
    ensures r == Some(BelowMinimum) <==> bet < MinBet
    ensures r == Some(AboveMaximum) <==> MinBet <= bet && bet > MaxBet
    ensures r == Some(NotEnoughCredits(credits)) <==> MinBet <= bet <= MaxBet && bet > credits
  {
    if bet < MinBet then Some(BelowMinimum)
    else if bet > MaxBet then Some(AboveMaximum)
    else if bet > credits then Some(NotEnoughCredits(credits))
    else None
  }

  // ---------------------------------------------------------------------
  // High-low

  datatype Guess = Higher | Lower

  /** Whether a guess about the next card is right; a tie is always wrong. */
  function GuessCorrect(g: Guess, current: Card, next: Card): bool
  {
    var correct := if g == Higher then CardValue(next) > CardValue(current)
                   else CardValue(next) < CardValue(current);
    if CardValue(next) == CardValue(current) then false else correct
  }

  /** On a tie neither guess wins; otherwise exactly one of them does. */
  lemma ExactlyOneGuessWins(current: Card, next: Card)
    ensures CardValue(next) == CardValue(current) ==>
      !GuessCorrect(Higher, current, next) && !GuessCorrect(Lower, current, next)
    ensures CardValue(next) != CardValue(current) ==>
      GuessCorrect(Higher, current, next) != GuessCorrect(Lower, current, next)
  {
  }

  /** A multiplier written as an exact fraction num / den. */
  datatype Fraction = Fraction(num: nat, den: nat)

  /** The cash-out multiplier table as cash_out looks it up: streaks 1 to 6
      have a tier, and any other streak falls back to 1.0. */
  function MultiplierAsWritten(streak: int): (m: Fraction)
    ensures m.den > 0
  {
    if streak == 1 then Fraction(11, 10)
    else if streak == 2 then Fraction(5, 4)
    else if streak == 3 then Fraction(3, 2)
    else if streak == 4 then Fraction(2, 1)
    else if streak == 5 then Fraction(3, 1)
    else if streak == 6 then Fraction(5, 1)
    else Fraction(1, 1)
  }

  function CashOutAsWritten(totalBet: int, streak: int): int
  {
    var m := MultiplierAsWritten(streak);
    totalBet * m.num / m.den
  }

  /** As written, a streak of 7 pays back only the stake: less than a streak
      of 6, and less than a streak of 1. */
  lemma AsWrittenLongStreakPaysLess()
    ensures CashOutAsWritten(100, 7) == 100
    ensures CashOutAsWritten(100, 6) == 500
    ensures CashOutAsWritten(100, 7) < CashOutAsWritten(100, 1)
  {
  }

  /** The table with streaks beyond the last tier keeping the top multiplier. */
  function Multiplier(streak: int): (m: Fraction)
    ensures m.den > 0
    ensures 1 <= streak <= 6 ==> m == MultiplierAsWritten(streak)
  {
    if streak > 6 then Fraction(5, 1) else MultiplierAsWritten(streak)
  }

  /** int(total_bet * multiplier). */
  function CashOutPayout(totalBet: int, streak: int): int
  {
    var m := Multiplier(streak);
    totalBet * m.num / m.den
  }

  /** With the top tier kept, a longer streak never pays less, and cashing
      out after at least one correct guess returns at least the stake. */
  lemma CashOutMonotone(totalBet: int, s: int, t: int)
    requires totalBet >= 0 && 1 <= s <= t
    ensures totalBet <= CashOutPayout(totalBet, s) <= CashOutPayout(totalBet, t)
  {
  }

  // ---------------------------------------------------------------------
  // Quick games

  /** The dice multiplier for a picked total 2..12, as a fraction. */
  function DiceMultiplier(number: int): (m: Fraction)
    requires 2 <= number <= 12
    ensures m.den > 0
  {
    if number == 2 || number == 12 then Fraction(36, 1)
    else if number == 3 || number == 11 then Fraction(18, 1)
    else if number == 4 || number == 10 then Fraction(12, 1)
    else if number == 5 || number == 9 then Fraction(9, 1)
    else if number == 6 || number == 8 then Fraction(36, 5)
    else Fraction(6, 1)
  }

  /** The number of ways two dice show the given total: the die values
      a in [1, hi] for which the other die total - a is a face. */
  function DiceWays(total: int, hi: nat): (w: nat)
    ensures w <= hi
  {
    if hi == 0 then 0
    else DiceWays(total, hi - 1) + (if 1 <= total - hi <= 6 then 1 else 0)
  }

  /** The dice table pays fair odds: multiplier times the number of ways to
      roll the number is 36, the number of outcomes. */
  lemma DiceOddsAreFair(number: int)
    requires 2 <= number <= 12
    ensures DiceMultiplier(number).num * DiceWays(number, 6) == 36 * DiceMultiplier(number).den
  {
    var ways := DiceWays(number, 6);
    assert DiceWays(number, 1) == (if number - 1 <= 6 then 1 else 0);
    assert DiceWays(number, 2) == DiceWays(number, 1) + (if 1 <= number - 2 <= 6 then 1 else 0);
    assert DiceWays(number, 3) == DiceWays(number, 2) + (if 1 <= number - 3 <= 6 then 1 else 0);
    assert DiceWays(number, 4) == DiceWays(number, 3) + (if 1 <= number - 4 <= 6 then 1 else 0);
    assert DiceWays(number, 5) == DiceWays(number, 4) + (if 1 <= number - 5 <= 6 then 1 else 0);
    assert ways == DiceWays(number, 5) + (if 1 <= number - 6 <= 6 then 1 else 0);
    assert ways == 6 - (if number >= 7 then number - 7 else 7 - number);
  }

  function DicePayout(bet: int, number: int): int
    requires 2 <= number <= 12
  {
    var m := DiceMultiplier(number);
    bet * m.num / m.den
  }

  /** The lucky-number multiplier by distance from the drawn number. */
  function LuckyMultiplier(difference: nat): nat
  {
    if difference == 0 then 50
    else if difference <= 5 then 10
    else if difference <= 10 then 5
    else if difference <= 20 then 2
    else 0
  }

  /** Being closer never pays less. */
  lemma LuckyCloserPaysMore(d1: nat, d2: nat)
    requires d1 <= d2
    ensures LuckyMultiplier(d1) >= LuckyMultiplier(d2)
    ensures LuckyMultiplier(d2) == 0 <==> d2 > 20
  {
  }
}
