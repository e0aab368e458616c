/** Playing cards and the 52-card deck (deck.rb). */
module Cards {

  /** Card ranks run from 2 to 14; 11..14 stand for Jack, Queen, King and Ace. */
  type Rank = r: int | 2 <= r <= 14 witness 2

  /** The four suits, in the order the deck is built: hearts, clubs, spades, diamonds. */
  datatype Suit = H | C | S | D

  /** A card is an immutable value: its rank and suit are fixed when it is built
      and can only be read afterwards. */
  datatype Card = Card(rank: Rank, suit: Suit)

  function SuitAt(k: nat): Suit
    requires k < 4
  {
    [H, C, S, D][k]
  }

  function SuitIndex(s: Suit): (k: nat)
    ensures k < 4 && SuitAt(k) == s
  {
    match s
    case H => 0
    case C => 1
    case S => 2
    case D => 3
  }

  /** The deck as Deck#initialize builds it: for every rank 2..14 in increasing
      order, one card of each suit in the order H, C, S, D. */
  function StandardDeck(): (d: seq<Card>)
    ensures |d| == 52
    ensures forall i :: 0 <= i < 52 ==> d[i] == Card(2 + i / 4, SuitAt(i % 4))
  {
    seq(52, i requires 0 <= i < 52 => Card(2 + i / 4, SuitAt(i % 4)))
  }

  /** Number of cards of suit `s` in `cards`. */
  function CountSuit(cards: seq<Card>, s: Suit): nat
  {
    if cards == [] then 0
    else (if cards[0].suit == s then 1 else 0) + CountSuit(cards[1..], s)
  }

  /** Number of cards of rank `r` in `cards`. */
  function CountRankOf(cards: seq<Card>, r: int): nat
  {
    if cards == [] then 0
    else (if cards[0].rank == r then 1 else 0) + CountRankOf(cards[1..], r)
  }

  lemma {:induction false} CountSuitAppend(a: seq<Card>, b: seq<Card>, s: Suit)
    ensures CountSuit(a + b, s) == CountSuit(a, s) + CountSuit(b, s)
  {
    if a == [] {
      assert a + b == b;
    } else {
      assert (a + b)[1..] == a[1..] + b;
      CountSuitAppend(a[1..], b, s);
    }
  }

  lemma {:induction false} CountRankAppend(a: seq<Card>, b: seq<Card>, r: int)
    ensures CountRankOf(a + b, r) == CountRankOf(a, r) + CountRankOf(b, r)
  {
    if a == [] {
      assert a + b == b;
    } else {
      assert (a + b)[1..] == a[1..] + b;
      CountRankAppend(a[1..], b, r);
    }
  }

  /** Cards 4k .. 4k+3 of the new deck: the rank k+2 in each of the four suits. */
  lemma StandardDeckBlock(k: nat, s: Suit, r: int)
    requires k < 13
    ensures CountSuit(StandardDeck()[4 * k..4 * k + 4], s) == 1
    ensures CountRankOf(StandardDeck()[4 * k..4 * k + 4], r) == if r == k + 2 then 4 else 0
  {
    var block := StandardDeck()[4 * k..4 * k + 4];
    assert block == [Card(k + 2, H), Card(k + 2, C), Card(k + 2, S), Card(k + 2, D)];
    assert block[1..][1..][1..][1..] == [];
    assert CountSuit(block[3..], s) == if s == D then 1 else 0;
    assert CountSuit(block[2..], s) == if s == D || s == S then 1 else 0;
    assert CountSuit(block[1..], s) == if s == H then 0 else 1;
    assert CountRankOf(block[3..], r) == if r == k + 2 then 1 else 0;
    assert CountRankOf(block[2..], r) == if r == k + 2 then 2 else 0;
    assert CountRankOf(block[1..], r) == if r == k + 2 then 3 else 0;
  }

  /** The first 4k cards of the new deck hold exactly k cards of each suit and
      four cards of each of the ranks 2 .. k+1. */
  lemma {:induction false} StandardDeckPrefixCounts(k: nat, s: Suit, r: int)
    requires k <= 13
    ensures CountSuit(StandardDeck()[..4 * k], s) == k
    ensures CountRankOf(StandardDeck()[..4 * k], r) == if 2 <= r < 2 + k then 4 else 0
  {
    var d := StandardDeck();
    if k > 0 {
      StandardDeckPrefixCounts(k - 1, s, r);
      var front, block := d[..4 * (k - 1)], d[4 * (k - 1)..4 * k];
      assert d[..4 * k] == front + block;
      CountSuitAppend(front, block, s);
      CountRankAppend(front, block, r);
      StandardDeckBlock(k - 1, s, r);
    }
  }

  /** A new deck has 52 pairwise distinct cards, holds every (rank, suit) pair,
      has 13 cards of each suit and 4 of each rank. */
  lemma StandardDeckComplete()
    ensures |StandardDeck()| == 52
    ensures forall i, j :: 0 <= i < j < 52 ==> StandardDeck()[i] != StandardDeck()[j]
    ensures forall c: Card :: c in StandardDeck()
    ensures forall s: Suit :: CountSuit(StandardDeck(), s) == 13
    ensures forall r: Rank :: CountRankOf(StandardDeck(), r) == 4
  {
    var d := StandardDeck();
    forall i, j | 0 <= i < j < 52 ensures d[i] != d[j] {
      if i / 4 == j / 4 {
        assert i % 4 != j % 4;
        assert SuitIndex(d[i].suit) == i % 4 && SuitIndex(d[j].suit) == j % 4 by {
          assert SuitAt(i % 4) == d[i].suit && SuitAt(j % 4) == d[j].suit;
        }
      }
    }
    forall c: Card ensures c in d {
      var k := (c.rank - 2) * 4 + SuitIndex(c.suit);
      assert k / 4 == c.rank - 2 && k % 4 == SuitIndex(c.suit);
      assert d[k] == c;
    }
    assert d[..4 * 13] == d;
    forall s: Suit ensures CountSuit(d, s) == 13 {
      StandardDeckPrefixCounts(13, s, 2);
    }
    forall r: Rank ensures CountRankOf(d, r) == 4 {
      StandardDeckPrefixCounts(13, H, r);
    }
  }

  /** What Array#pop(n) does to a sequence: the last min(n, |s|) elements are
      removed and returned in their original order. */
  function Pop(s: seq<Card>, n: nat): (r: (seq<Card>, seq<Card>))
    ensures r.0 + r.1 == s
    ensures |r.1| == if n <= |s| then n else |s|
    ensures n >= |s| ==> r.0 == []
  {
    var keep := if n <= |s| then |s| - n else 0;
    (s[..keep], s[keep..])
  }

  /** The deck of one hand. Its card list shrinks in place as cards are drawn
      from its end and is replaced by a permutation when shuffled. */
  class Deck {
    var cards: seq<Card>

    constructor ()
      ensures cards == StandardDeck()
    {
      cards := StandardDeck();
    }

    /** Deck#draw_cards: takes `amount` cards off the end of the deck
        (all that remain when fewer are left). */
    method DrawCards(amount: nat) returns (drawn: seq<Card>)
      modifies this
      ensures (cards, drawn) == Pop(old(cards), amount)
    {
      var keep := if amount <= |cards| then |cards| - amount else 0;
      drawn := cards[keep..];
      cards := cards[..keep];
    }

    /** Deck#shuffle: the source's random shuffle, with the random choices
        supplied as `rolls` (one Fisher-Yates swap per position). Whatever the
        rolls, the result is a permutation of the previous deck. */
    method Shuffle(rolls: seq<nat>)
      modifies this
      ensures |cards| == |old(cards)|
      ensures multiset(cards) == multiset(old(cards))
    {
      var i := |cards|;
      while i > 1
        invariant 0 <= i <= |cards| == |old(cards)|
        invariant multiset(cards) == multiset(old(cards))
      {
        i := i - 1;
        var k := |cards| - 1 - i;
        var j := if k < |rolls| then rolls[k] % (i + 1) else i;
        cards := cards[i := cards[j]][j := cards[i]];
      }
    }
  }
}
