/** The gambling cog's running games: one blackjack table and one high-low
    game per user, both betting against the shared credit ledger. Each
    handler that may draw takes the shuffled order a refill of the deck
    would use. */
module Casino {
  import opened Util
  import opened Cards
  import opened Blackjack
  import opened Profiles

  datatype BlackjackGame = BlackjackGame(deck: Deck, hands: seq<Hand>, dealer: seq<Card>, current: nat)

  datatype HighLowGame = HighLowGame(deck: Deck, card: Card, streak: nat, totalBet: int)

  datatype StartResult = AlreadyPlaying | Rejected(error: BetError) | Started | Natural(payout: int)

  datatype TurnResult = GameNotFound | CannotDouble | NotEnoughToDouble | NextTurn | Finished(payout: int)

  datatype GuessResult = NoGame | Correct(card: Card) | Wrong(card: Card)

  datatype CashOutResult = NoHighLowGame | NoStreak | Paid(winnings: int)

  /** The opening deal from a fresh deck: player, dealer, player, dealer,
      each popped from the end. Returns both hands and the deck left. */
  function OpeningDeal(order: seq<Card>): (seq<Card>, seq<Card>, seq<Card>)
    requires |order| == 52
  {
    ([order[51], order[49]], [order[50], order[48]], order[..48])
  }

  /** The ledger after a finished game: the winnings are credited only when
      there are any. */
  function PayOut(users: map<UserId, Profile>, u: UserId, amount: int): map<UserId, Profile>
  {
    if amount > 0 then AddCredits(users, u, amount) else users
  }

  /** The result of finishing a blackjack game: what it pays and the deck the
      dealer leaves. */
  function FinishOutcome(hands: seq<Hand>, dealer: seq<Card>, deck: seq<Card>, order: seq<Card>): (int, seq<Card>)
    requires |order| > 0
  {
    var d := DealerPlay(dealer, deck, order);
    (TotalPayout(hands, d.0), d.1)
  }

  /** What the opening deal pays at once: a player's natural pays the
      natural rate, or the stake back against a dealer's natural; no
      natural means the game goes on. */
  function NaturalPayout(player: seq<Card>, dealer: seq<Card>, bet: int): (r: Option<int>)
    ensures r.Some? <==> IsBlackjack(player)
    ensures r.Some? && bet >= 0 ==> r.value >= bet
  {
    if !IsBlackjack(player) then None
    else if IsBlackjack(dealer) then Some(bet)
    else Some(NaturalWin(bet))
  }

  /** An accepted blackjack start with the given bet and shuffle took the
      tables games0 and users0 to r, games1 and users1: the bet is taken;
      a natural on the deal is paid at once, otherwise the player's game
      is seated with the dealt hands and a deck holding cards1, the cards
      the deal leaves. */
  ghost predicate Opened(u: UserId, bet: int, order: seq<Card>,
                         games0: map<UserId, BlackjackGame>, users0: map<UserId, Profile>,
                         r: StartResult, games1: map<UserId, BlackjackGame>, users1: map<UserId, Profile>,
                         cards1: seq<Card>)
  {
    |order| == 52 &&
    var (p, d, rest) := OpeningDeal(order);
    var staked := AddCredits(users0, u, -bet);
    var natural := NaturalPayout(p, d, bet);
    if natural.Some? then
      r == Natural(natural.value) && games1 == games0 && users1 == AddCredits(staked, u, natural.value)
    else
      r == Started && users1 == staked && u in games1
      && games1 == games0[u := BlackjackGame(games1[u].deck, [Hand(p, bet, false)], d, 0)]
      && cards1 == rest
  }

  /** The game after a card is added to its current hand. */
  function WithCard(g: BlackjackGame, c: Card): BlackjackGame
    requires g.current < |g.hands|
  {
    g.(hands := g.hands[g.current := AddCard(g.hands[g.current], c)])
  }

  /** The game after its current hand is doubled: twice the bet, marked
      doubled, one card more. */
  function WithDoubledCard(g: BlackjackGame, c: Card): BlackjackGame
    requires g.current < |g.hands|
  {
    var h := g.hands[g.current];
    g.(hands := g.hands[g.current := Hand(h.cards + [c], 2 * h.bet, true)])
  }

  /** Moving on from the current hand of g (with deck cards0, the other
      players' games others and the ledger users0) gave result r and left
      games1, users1 and cards1: either the next hand is current, or the
      game was finished, credited and removed. */
  ghost predicate Advanced(u: UserId, g: BlackjackGame, cards0: seq<Card>, order: seq<Card>,
                           others: map<UserId, BlackjackGame>, users0: map<UserId, Profile>,
                           r: TurnResult, games1: map<UserId, BlackjackGame>,
                           users1: map<UserId, Profile>, cards1: seq<Card>)
  {
    if g.current + 1 < |g.hands| then
      r == NextTurn && games1 == others[u := g.(current := g.current + 1)]
      && users1 == users0 && cards1 == cards0
    else
      |order| > 0 &&
      var outcome := FinishOutcome(g.hands, g.dealer, cards0, order);
      r == Finished(outcome.0) && cards1 == outcome.1
      && games1 == others && users1 == PayOut(users0, u, outcome.0)
  }

  /** Which game u had before does not matter to replacing or removing it. */
  lemma ReplaceThenRemove(games: map<UserId, BlackjackGame>, u: UserId, a: BlackjackGame)
    ensures games[u := a] - {u} == games - {u}
    ensures (games - {u})[u := a] == games[u := a]
  {
  }

  /** The opening deal into a fresh deck. */
  method Deal(order: seq<Card>) returns (deck: Deck, player: seq<Card>, dealer: seq<Card>)
    requires IsShuffle(order)
    ensures fresh(deck)
    ensures (player, dealer, deck.cards) == OpeningDeal(order)
  {
    deck := new Deck(order);
    var p1 := deck.Draw(order);
    assert p1 == order[51] && deck.cards == order[..51];
    var d1 := deck.Draw(order);
    assert d1 == order[50] && deck.cards == order[..50];
    var p2 := deck.Draw(order);
    assert p2 == order[49] && deck.cards == order[..49];
    var d2 := deck.Draw(order);
    assert d2 == order[48] && deck.cards == order[..48];
    player := [p1, p2];
    dealer := [d1, d2];
  }

  /** A running blackjack game: at least one hand, the current index in
      range, and a positive bet on every hand. */
  ghost predicate GameShape(g: BlackjackGame)
  {
    |g.hands| >= 1 && g.current < |g.hands|
    && forall i :: 0 <= i < |g.hands| ==> g.hands[i].bet > 0
  }

  /** The dealer drawing until its hand is worth 17 or more. */
  method PlayDealer(deck: Deck, dealer: seq<Card>, order: seq<Card>) returns (final: seq<Card>)
    requires IsShuffle(order)
    modifies deck
    ensures (final, deck.cards) == DealerPlay(dealer, old(deck.cards), order)
  {
    final := dealer;
    while HandValue(final) < 17
      invariant DealerPlay(final, deck.cards, order) == DealerPlay(dealer, old(deck.cards), order)
      decreases 17 - HardTotal(final)
    {
      HandValueAtLeastHard(final);
      var c := deck.Draw(order);
      AppendCard(final, c);
      final := final + [c];
    }
  }

  /** The settlement loop: the winnings of every hand, added up. */
  method SettleHands(hands: seq<Hand>, dealer: seq<Card>) returns (total: int)
    ensures total == TotalPayout(hands, dealer)
  {
    total := 0;
    var i := 0;
    while i < |hands|
      invariant 0 <= i <= |hands|
      invariant total == TotalPayout(hands[..i], dealer)
    {
      assert hands[..i + 1][..i] == hands[..i];
      total := total + HandPayout(hands[i], dealer);
      i := i + 1;
    }
    assert hands[..|hands|] == hands;
  }

  class Casino {
    const store: UserStore
    var blackjackGames: map<UserId, BlackjackGame>
    var highlowGames: map<UserId, HighLowGame>

    /** The ledger holds no negative balance, and every running game is well
        formed. */
    ghost predicate Valid()
      reads this, store
    {
      store.Valid()
      && (forall u | u in blackjackGames :: GameShape(blackjackGames[u]))
      && (forall u | u in highlowGames :: highlowGames[u].totalBet >= 0)
    }

    constructor (ledger: UserStore)
      requires ledger.Valid()
      ensures store == ledger && blackjackGames == map[] && highlowGames == map[]
      ensures Valid()
    {
      store := ledger;
      blackjackGames := map[];
      highlowGames := map[];
    }

    /** Start a blackjack game: refuse a second game and a bad bet, take the
        bet, deal, and settle a natural at once. */
    method StartBlackjack(u: UserId, bet: int, order: seq<Card>) returns (r: StartResult)
      requires Valid() && IsShuffle(order)
      modifies this, store
      ensures Valid()
      ensures highlowGames == old(highlowGames)
      ensures u in old(blackjackGames) ==>
        r == AlreadyPlaying && blackjackGames == old(blackjackGames) && store.users == old(store.users)
      ensures u !in old(blackjackGames) && ValidateBet(bet, old(store.Credits(u))).Some? ==>
        r == Rejected(ValidateBet(bet, old(store.Credits(u))).value)
        && blackjackGames == old(blackjackGames) && store.users == old(store.users)
      ensures u !in old(blackjackGames) && ValidateBet(bet, old(store.Credits(u))).None? ==>
        Opened(u, bet, order, old(blackjackGames), old(store.users), r, blackjackGames, store.users,
               if u in blackjackGames then blackjackGames[u].deck.cards else [])
        && (r == Started ==> fresh(blackjackGames[u].deck))
    {
      if u in blackjackGames {
        return AlreadyPlaying;
      }
      var check := ValidateBet(bet, store.Credits(u));
      if check.Some? {
        return Rejected(check.value);
      }
      r := OpenGame(u, bet, order);
    }

    /** The accepted start of a blackjack game: take the bet, deal, and
        either settle a natural or seat the player's hand. */
    method OpenGame(u: UserId, bet: int, order: seq<Card>) returns (r: StartResult)
      requires Valid() && IsShuffle(order) && u !in blackjackGames
      requires 0 < bet <= store.Credits(u)
      modifies this, store
      ensures Valid()
      ensures highlowGames == old(highlowGames)
      ensures Opened(u, bet, order, old(blackjackGames), old(store.users), r, blackjackGames, store.users,
               if u in blackjackGames then blackjackGames[u].deck.cards else [])
      ensures r == Started ==> fresh(blackjackGames[u].deck)
    {
      var _ := store.UpdateCredits(u, -bet);
      var deck, player, dealer := Deal(order);
      var natural := NaturalPayout(player, dealer, bet);
      if natural.Some? {
        var _ := store.UpdateCredits(u, natural.value);
        r := Natural(natural.value);
      } else {
        var game := BlackjackGame(deck, [Hand(player, bet, false)], dealer, 0);
        assert GameShape(game);
        blackjackGames := blackjackGames[u := game];
        r := Started;
      }
    }

    /** Move on from the current hand: to the next hand, or, after the last
        one, finish the game (the dealer plays, every hand is settled and the
        winnings credited) and remove it from the table. */
    method Advance(u: UserId, order: seq<Card>) returns (r: TurnResult)
      requires Valid() && IsShuffle(order) && u in blackjackGames
      modifies this, store, blackjackGames[u].deck
      ensures Valid()
      ensures highlowGames == old(highlowGames)
      ensures var g := old(blackjackGames[u]);
        Advanced(u, g, old(g.deck.cards), order, old(blackjackGames) - {u}, old(store.users),
                 r, blackjackGames, store.users, g.deck.cards)
    {
      var g := blackjackGames[u];
      if g.current + 1 < |g.hands| {
        ReplaceThenRemove(blackjackGames, u, g.(current := g.current + 1));
        blackjackGames := blackjackGames[u := g.(current := g.current + 1)];
        return NextTurn;
      }
      var finalDealer := PlayDealer(g.deck, g.dealer, order);
      var payout := SettleHands(g.hands, finalDealer);
      if payout > 0 {
        var _ := store.UpdateCredits(u, payout);
      }
      blackjackGames := blackjackGames - {u};
      r := Finished(payout);
    }

    /** Hit: draw into the current hand; a bust moves on to the next hand,
        or finishes the game after the last one. */
    method Hit(u: UserId, order: seq<Card>) returns (r: TurnResult)
      requires Valid() && IsShuffle(order)
      modifies this, store, if u in blackjackGames then {blackjackGames[u].deck} else {}
      ensures Valid()
      ensures highlowGames == old(highlowGames)
      ensures u !in old(blackjackGames) ==>
        r == GameNotFound && blackjackGames == old(blackjackGames) && store.users == old(store.users)
      ensures u in old(blackjackGames) ==>
        var g := old(blackjackGames[u]);
        var drawn := DrawFrom(old(g.deck.cards), order);
        var g1 := WithCard(g, drawn.0);
        if !IsBust(g1.hands[g.current].cards) then
          r == NextTurn && store.users == old(store.users) && g.deck.cards == drawn.1
          && blackjackGames == old(blackjackGames)[u := g1]
        else
          Advanced(u, g1, drawn.1, order, old(blackjackGames) - {u}, old(store.users),
                   r, blackjackGames, store.users, g.deck.cards)
    {
      if u !in blackjackGames {
        return GameNotFound;
      }
      var g := blackjackGames[u];
      var c := g.deck.Draw(order);
      var g1 := WithCard(g, c);
      assert GameShape(g1);
      blackjackGames := blackjackGames[u := g1];
      if IsBust(g1.hands[g.current].cards) {
        r := Advance(u, order);
        ReplaceThenRemove(old(blackjackGames), u, g1);
      } else {
        r := NextTurn;
      }
    }

    /** Stand: move on to the next hand, or finish after the last one. */
    method Stand(u: UserId, order: seq<Card>) returns (r: TurnResult)
      requires Valid() && IsShuffle(order)
      modifies this, store, if u in blackjackGames then {blackjackGames[u].deck} else {}
      ensures Valid()
      ensures highlowGames == old(highlowGames)
      ensures u !in old(blackjackGames) ==>
        r == GameNotFound && blackjackGames == old(blackjackGames) && store.users == old(store.users)
      ensures u in old(blackjackGames) ==>
        var g := old(blackjackGames[u]);
        Advanced(u, g, old(g.deck.cards), order, old(blackjackGames) - {u}, old(store.users),
                 r, blackjackGames, store.users, g.deck.cards)
    {
      if u !in blackjackGames {
        return GameNotFound;
      }
      r := Advance(u, order);
    }

    /** Double down: only on a two-card hand not yet doubled and when the
        balance covers the bet; the bet is taken again and doubled, exactly
        one card is drawn, and play moves on whatever the card. */
    method DoubleDown(u: UserId, order: seq<Card>) returns (r: TurnResult)
      requires Valid() && IsShuffle(order)
      modifies this, store, if u in blackjackGames then {blackjackGames[u].deck} else {}
      ensures Valid()
      ensures highlowGames == old(highlowGames)
      ensures u !in old(blackjackGames) ==>
        r == GameNotFound && blackjackGames == old(blackjackGames) && store.users == old(store.users)
      ensures u in old(blackjackGames) ==>
        var g := old(blackjackGames[u]);
        var h := g.hands[g.current];
        if !CanDouble(h) || h.bet > old(store.Credits(u)) then
          r == (if !CanDouble(h) then CannotDouble else NotEnoughToDouble)
          && blackjackGames == old(blackjackGames) && store.users == old(store.users)
          && g.deck.cards == old(g.deck.cards)
        else
          var drawn := DrawFrom(old(g.deck.cards), order);
          Advanced(u, WithDoubledCard(g, drawn.0), drawn.1, order, old(blackjackGames) - {u},
                   AddCredits(old(store.users), u, -h.bet), r, blackjackGames, store.users, g.deck.cards)
    {
      if u !in blackjackGames {
        return GameNotFound;
      }
      var g := blackjackGames[u];
      var h := g.hands[g.current];
      if !CanDouble(h) {
        return CannotDouble;
      }
      if h.bet > store.Credits(u) {
        return NotEnoughToDouble;
      }
      var g1 := TakeDouble(u, order);
      r := Advance(u, order);
      ReplaceThenRemove(old(blackjackGames), u, g1);
    }

    /** The doubling itself: the bet is taken again, one card drawn, and the
        current hand doubled. */
    method TakeDouble(u: UserId, order: seq<Card>) returns (g1: BlackjackGame)
      requires Valid() && IsShuffle(order) && u in blackjackGames
      requires var g := blackjackGames[u]; g.hands[g.current].bet <= store.Credits(u)
      modifies this, store, blackjackGames[u].deck
      ensures Valid() && highlowGames == old(highlowGames)
      ensures var g := old(blackjackGames[u]);
        var drawn := DrawFrom(old(g.deck.cards), order);
        g1 == WithDoubledCard(g, drawn.0) && g.deck.cards == drawn.1
        && blackjackGames == old(blackjackGames)[u := g1]
        && store.users == AddCredits(old(store.users), u, -g.hands[g.current].bet)
    {
      var g := blackjackGames[u];
      var _ := store.UpdateCredits(u, -g.hands[g.current].bet);
      var c := g.deck.Draw(order);
      g1 := WithDoubledCard(g, c);
      assert GameShape(g1);
      blackjackGames := blackjackGames[u := g1];
    }

    /** The game's view timing out: a running game is finished as if the
        player stood on every remaining hand. */
    method BlackjackTimeout(u: UserId, order: seq<Card>) returns (payout: Option<int>)
      requires Valid() && IsShuffle(order)
      modifies this, store, if u in blackjackGames then {blackjackGames[u].deck} else {}
      ensures Valid()
      ensures highlowGames == old(highlowGames)
      ensures blackjackGames == old(blackjackGames) - {u}
      ensures u !in old(blackjackGames) ==> payout == None && store.users == old(store.users)
      ensures u in old(blackjackGames) ==>
        var g := old(blackjackGames[u]);
        var outcome := FinishOutcome(g.hands, g.dealer, old(g.deck.cards), order);
        payout == Some(outcome.0) && g.deck.cards == outcome.1
        && store.users == PayOut(old(store.users), u, outcome.0)
    {
      if u !in blackjackGames {
        return None;
      }
      var g := blackjackGames[u];
      var finalDealer := PlayDealer(g.deck, g.dealer, order);
      var p := SettleHands(g.hands, finalDealer);
      if p > 0 {
        var _ := store.UpdateCredits(u, p);
      }
      blackjackGames := blackjackGames - {u};
      payout := Some(p);
    }

    /** Start a high-low game: refuse a second game and a bad bet, take the
        bet and draw the first card from a fresh deck. */
    method StartHighLow(u: UserId, bet: int, order: seq<Card>) returns (r: StartResult)
      requires Valid() && IsShuffle(order)
      modifies this, store
      ensures Valid()
      ensures blackjackGames == old(blackjackGames)
      ensures u in old(highlowGames) ==>
        r == AlreadyPlaying && highlowGames == old(highlowGames) && store.users == old(store.users)
      ensures u !in old(highlowGames) && ValidateBet(bet, old(store.Credits(u))).Some? ==>
        r == Rejected(ValidateBet(bet, old(store.Credits(u))).value)
        && highlowGames == old(highlowGames) && store.users == old(store.users)
      ensures u !in old(highlowGames) && ValidateBet(bet, old(store.Credits(u))).None? ==>
        r == Started && store.users == AddCredits(old(store.users), u, -bet)
        && u in highlowGames && fresh(highlowGames[u].deck)
        && highlowGames == old(highlowGames)[u := HighLowGame(highlowGames[u].deck, order[51], 0, bet)]
        && highlowGames[u].deck.cards == order[..51]
    {
      if u in highlowGames {
        return AlreadyPlaying;
      }
      var check := ValidateBet(bet, store.Credits(u));
      if check.Some? {
        return Rejected(check.value);
      }
      var _ := store.UpdateCredits(u, -bet);
      var deck := new Deck(order);
      var first := deck.Draw(order);
      highlowGames := highlowGames[u := HighLowGame(deck, first, 0, bet)];
      r := Started;
    }

    /** Guess the next card: a right guess makes it the current card and
        adds one to the streak; a wrong guess (a tie included) ends the
        game with nothing paid back. */
    method MakeGuess(u: UserId, guess: Guess, order: seq<Card>) returns (r: GuessResult)
      requires Valid() && IsShuffle(order)
      modifies this, if u in highlowGames then {highlowGames[u].deck} else {}
      ensures Valid()
      ensures blackjackGames == old(blackjackGames)
      ensures u !in old(highlowGames) ==> r == NoGame && highlowGames == old(highlowGames)
      ensures u in old(highlowGames) ==>
        var g := old(highlowGames[u]);
        var drawn := DrawFrom(old(g.deck.cards), order);
        g.deck.cards == drawn.1
        && if GuessCorrect(guess, g.card, drawn.0) then
             r == Correct(drawn.0)
             && highlowGames == old(highlowGames)[u := g.(card := drawn.0, streak := g.streak + 1)]
           else
             r == Wrong(drawn.0) && highlowGames == old(highlowGames) - {u}
    {
      if u !in highlowGames {
        return NoGame;
      }
      var g := highlowGames[u];
      var next := g.deck.Draw(order);
      if GuessCorrect(guess, g.card, next) {
        highlowGames := highlowGames[u := g.(card := next, streak := g.streak + 1)];
        r := Correct(next);
      } else {
        highlowGames := highlowGames - {u};
        r := Wrong(next);
      }
    }

    /** Cash out: needs a game and at least one correct guess; pays the
        stake times the streak's multiplier and ends the game. */
    method CashOut(u: UserId) returns (r: CashOutResult)
      requires Valid()
      modifies this, store
      ensures Valid()
      ensures blackjackGames == old(blackjackGames)
      ensures u !in old(highlowGames) ==>
        r == NoHighLowGame && highlowGames == old(highlowGames) && store.users == old(store.users)
      ensures u in old(highlowGames) && old(highlowGames[u]).streak == 0 ==>
        r == NoStreak && highlowGames == old(highlowGames) && store.users == old(store.users)
      ensures u in old(highlowGames) && old(highlowGames[u]).streak > 0 ==>
        var g := old(highlowGames[u]);
        var w := CashOutPayout(g.totalBet, g.streak);
        r == Paid(w) && w >= g.totalBet
        && highlowGames == old(highlowGames) - {u}
        && store.users == AddCredits(old(store.users), u, w)
    {
      if u !in highlowGames {
        return NoHighLowGame;
      }
      var g := highlowGames[u];
      if g.streak == 0 {
        return NoStreak;
      }
      var winnings := CashOutPayout(g.totalBet, g.streak);
      CashOutMonotone(g.totalBet, g.streak, g.streak);
      var _ := store.UpdateCredits(u, winnings);
      highlowGames := highlowGames - {u};
      r := Paid(winnings);
    }

    /** The high-low view timing out: the game is dropped, nothing paid. */
    method HighLowTimeout(u: UserId)
      requires Valid()
      modifies this
      ensures Valid()
      ensures blackjackGames == old(blackjackGames)
      ensures highlowGames == old(highlowGames) - {u}
    {
      if u in highlowGames {
        highlowGames := highlowGames - {u};
      }
    }
  }
}
