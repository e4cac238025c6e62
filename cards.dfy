/** Playing cards and the 52-card deck the blackjack and high-low games
    draw from. A shuffle is not computed: every (re)fill of a deck is given
    the shuffled order as an input, which must be an arrangement of the
    full deck. */
module Cards {

  datatype Suit = Spades | Clubs | Diamonds | Hearts

  type PipValue = n: int | 2 <= n <= 10 witness 2

  datatype Rank = Pip(n: PipValue) | Jack | Queen | King | Ace

  datatype Card = Card(suit: Suit, rank: Rank)

  /** The base value of a card: numerals count their number, faces 10 and
      the ace 11. */
  function CardValue(c: Card): (v: int)
    ensures 2 <= v <= 11
    ensures c.rank.Pip? ==> v == c.rank.n
    ensures (c.rank == Jack || c.rank == Queen || c.rank == King) ==> v == 10
    ensures c.rank == Ace <==> v == 11
  {
    match c.rank
    case Jack => 10
    case Queen => 10
    case King => 10
    case Ace => 11
    case Pip(n) => n
  }

  /** Suits and ranks in the order the deck lists them. */
  function SuitAt(i: nat): Suit
    requires i < 4
  {
    [Spades, Clubs, Diamonds, Hearts][i]
  }

  function SuitIndex(s: Suit): (i: nat)
    ensures i < 4 && SuitAt(i) == s
  {
    match s
    case Spades => 0
    case Clubs => 1
    case Diamonds => 2
    case Hearts => 3
  }

  function RankAt(i: nat): Rank
    requires i < 13
  {
    if i < 9 then Pip(i + 2) else [Jack, Queen, King, Ace][i - 9]
  }

  function RankIndex(r: Rank): (i: nat)
    ensures i < 13 && RankAt(i) == r
  {
    match r
    case Pip(n) => n - 2
    case Jack => 9
    case Queen => 10
    case King => 11
    case Ace => 12
  }

  /** The fresh deck before shuffling: for each suit, every rank. */
  function FullDeck(): seq<Card>
  {
    seq(52, i requires 0 <= i < 52 => Card(SuitAt(i / 13), RankAt(i % 13)))
  }

  lemma IndexOfCardAt(i: int)
    requires 0 <= i < 52
    ensures SuitIndex(FullDeck()[i].suit) * 13 + RankIndex(FullDeck()[i].rank) == i
  {
    var q, r := i / 13, i % 13;
    assert SuitIndex(SuitAt(q)) == q;
    assert RankIndex(RankAt(r)) == r;
  }

  /** A fresh deck holds 52 pairwise distinct cards, and every card. */
  lemma FullDeckDistinctAndComplete()
    ensures |FullDeck()| == 52
    ensures forall i, j :: 0 <= i < j < 52 ==> FullDeck()[i] != FullDeck()[j]
    ensures forall c: Card :: c in FullDeck()
  {
    var d := FullDeck();
    forall i, j | 0 <= i < j < 52
      ensures d[i] != d[j]
    {
      IndexOfCardAt(i);
      IndexOfCardAt(j);
    }
    forall c: Card
      ensures c in d
    {
      var k := SuitIndex(c.suit) * 13 + RankIndex(c.rank);
      assert d[k] == c;
    }
  }

  /** An order a shuffle can produce: an arrangement of the full deck. */
  ghost predicate IsShuffle(order: seq<Card>)
  {
    |order| == 52 && multiset(order) == multiset(FullDeck())
  }

  /** The card the deck's draw returns, and the cards left behind: when the
      deck is empty it is refilled with order first; the last card is taken. */
  function DrawFrom(cards: seq<Card>, order: seq<Card>): (Card, seq<Card>)
    requires |order| > 0
  {
    var src := if cards == [] then order else cards;
    (src[|src| - 1], src[..|src| - 1])
  }

  /** A draw splits the cards it drew from into the card and the rest, so
      a deck that holds cards of one full deck keeps doing so, and, drawing
      from a fresh shuffle, holds 51 distinct cards afterwards. */
  lemma DrawKeepsSubDeck(cards: seq<Card>, order: seq<Card>)
    requires IsShuffle(order) && multiset(cards) <= multiset(FullDeck())
    ensures var src := if cards == [] then order else cards;
      var r := DrawFrom(cards, order);
      src == r.1 + [r.0] && |r.1| == |src| - 1
      && multiset(r.1) + multiset{r.0} == multiset(src)
      && multiset(r.1) <= multiset(FullDeck())
  {
    var src := if cards == [] then order else cards;
    var r := DrawFrom(cards, order);
    assert src == r.1 + [r.0];
  }

  /** A deck: its cards sit in a list that is refilled and popped at the end. */
  class Deck {
    var cards: seq<Card>

    constructor (order: seq<Card>)
      requires IsShuffle(order)
      ensures cards == order
    {
      cards := order;
    }

    /** Rebuild the deck from the full set of cards, in the given order. */
    method Reset(order: seq<Card>)
      requires IsShuffle(order)
      modifies this
      ensures cards == order
    {
      cards := order;
    }

    /** Draw a card: refill when empty, then pop the last card. */
    method Draw(order: seq<Card>) returns (c: Card)
      requires IsShuffle(order)
      modifies this
      ensures (c, cards) == DrawFrom(old(cards), order)
    {
      if cards == [] {
        Reset(order);
      }
      c := cards[|cards| - 1];
      cards := cards[..|cards| - 1];
    }
  }
}
