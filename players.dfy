// Players at the table and the computer opponents' betting policy.
//
// A `Player` carries the per-hand state the table updates in place (hole
// cards, folded flag, chip stack and the bet shown for the current round).
// The policy of a computer opponent is a pair of pure lookup tables: one on
// the "tier" of the two hole cards before the flop, one on the score of the
// best five-card hand afterwards.
module Players {
  import opened Cards

  datatype Option<T> = None | Some(value: T)

  /** The bet shown next to a player: an amount, or the "---" marker of a folded player. */
  datatype Bet = Amount(n: int) | FoldedMarker

  /** What a player does on their turn. */
  datatype Action = Fold | Check | Call | Raise(amount: int)

  /** The updatable part of a player, as a value. */
  datatype PlayerState = PlayerState(holeCards: seq<Card>, folded: bool, chips: int, bet: Bet)

  class Player {
    const id: nat
    var holeCards: seq<Card>
    var folded: bool
    var chips: int
    var bet: Bet

    function State(): PlayerState
      reads this
    {
      PlayerState(holeCards, folded, chips, bet)
    }

    /** A new player sits down with 50 chips, no cards and no bet. */
    constructor (id: nat)
      ensures this.id == id
      ensures holeCards == [] && !folded && chips == 50 && bet == Amount(0)
    {
      this.id := id;
      holeCards := [];
      folded := false;
      chips := 50;
      bet := Amount(0);
    }

    /** Folding withdraws the player from the hand; chips and cards stay as they are. */
    method FoldHand()
      modifies this`folded, this`bet
      ensures folded && bet == FoldedMarker
    {
      folded := true;
      bet := FoldedMarker;
    }

    /** Between hands the cards, the folded flag and the bet are cleared; the chips are kept. */
    method ResetSelf()
      modifies this`holeCards, this`folded, this`bet
      ensures holeCards == [] && !folded && bet == Amount(0)
    {
      holeCards := [];
      folded := false;
      bet := Amount(0);
    }
  }

  // ---------------------------------------------------------------------
  // Starting-hand tiers
  // ---------------------------------------------------------------------

  /** The two hole cards ordered by rank, lower first (the order of two equal ranks is kept). */
  function SortByRank(a: Card, b: Card): (r: (Card, Card))
    ensures r.0.rank <= r.1.rank
    ensures (r == (a, b)) || (r == (b, a))
  {
    if b.rank < a.rank then (b, a) else (a, b)
  }

  /**
   * The tier of a starting hand: 1 is the best, 21 a hand still worth
   * playing, -1 a hand to fold.  A rank case on the lower card returns early
   * for the listed hands; every other hand falls through to the final rule.
   */
  function RankStartingHand(hole: seq<Card>): (tier: int)
    requires |hole| == 2
    ensures tier == -1 || 1 <= tier <= 21
  {
    var (first, second) := SortByRank(hole[0], hole[1]);
    var suited := first.suit == second.suit;
    var paired := first.rank == second.rank;
    var connected := first.rank + 1 == second.rank;
    var fallThrough := if suited || paired || connected then 21 else -1;
    if first.rank == 8 then
      (if paired then 14 else fallThrough)
    else if first.rank == 9 then
      (if paired then 9 else fallThrough)
    else if first.rank == 10 then
      if paired then 6
      else if second.rank == 12 && suited then 20
      else if second.rank == 13 && suited then 16
      else if second.rank == 14 && suited then 12
      else fallThrough
    else if first.rank == 11 then
      if paired then 4
      else if second.rank == 12 && suited then 17
      else if second.rank == 13 && suited then 15
      else if second.rank == 14 then (if suited then 10 else 18)
      else fallThrough
    else if first.rank == 12 then
      if paired then 3
      else if second.rank == 13 then (if suited then 11 else 19)
      else if second.rank == 14 then (if suited then 8 else 13)
      else fallThrough
    else if first.rank == 13 then
      if paired then 2
      else if second.rank == 14 then (if suited then 5 else 7)
      else fallThrough
    else if first.rank == 14 then
      (if paired then 1 else fallThrough)
    else
      fallThrough
  }

  /** The tier depends only on the unordered pair of hole cards. */
  lemma RankStartingHandSymmetric(a: Card, b: Card)
    ensures RankStartingHand([a, b]) == RankStartingHand([b, a])
  {
    if a.rank == b.rank {
      // Equal ranks keep their order, but every test is symmetric then.
      assert SortByRank(a, b) == (a, b) && SortByRank(b, a) == (b, a);
    } else {
      assert SortByRank(a, b) == SortByRank(b, a);
    }
  }

  /** The tier of a pocket pair of a given rank. */
  function PocketPairTier(r: Rank): int
  {
    if r == 14 then 1
    else if r == 13 then 2
    else if r == 12 then 3
    else if r == 11 then 4
    else if r == 10 then 6
    else if r == 9 then 9
    else if r == 8 then 14
    else 21
  }

  /** Pocket pairs: aces 1, kings 2, queens 3, jacks 4, tens 6, nines 9, eights 14, lower pairs 21. */
  lemma PocketPairs(a: Card, b: Card)
    requires a.rank == b.rank
    ensures RankStartingHand([a, b]) == PocketPairTier(a.rank)
  {
  }

  /** The offsuit hands that the table lists by name: A-J, K-Q, A-Q and A-K. */
  predicate ListedOffsuit(low: Rank, high: Rank)
  {
    (low == 11 && high == 14) || (low == 12 && high == 13) ||
    (low == 12 && high == 14) || (low == 13 && high == 14)
  }

  /**
   * A hand is folded (tier -1) exactly when it is neither suited, nor paired,
   * nor connected, nor one of the listed offsuit broadway hands.
   */
  lemma UnplayableExactly(a: Card, b: Card)
    ensures var (lo, hi) := SortByRank(a, b);
      RankStartingHand([a, b]) == -1 <==>
        lo.suit != hi.suit && lo.rank != hi.rank && lo.rank + 1 != hi.rank &&
        !ListedOffsuit(lo.rank, hi.rank)
  {
  }

  /** Suited, paired or connected hands whose lower card is below eight all get tier 21. */
  lemma LowHandsFallThrough(a: Card, b: Card)
    requires a.rank < 8 && b.rank < 8
    ensures RankStartingHand([a, b]) ==
      (if a.suit == b.suit || a.rank == b.rank || a.rank + 1 == b.rank || b.rank + 1 == a.rank
       then 21 else -1)
  {
  }

  // ---------------------------------------------------------------------
  // The computer opponents' policy
  // ---------------------------------------------------------------------

  /** Checking when nothing has been bet this round, calling otherwise. */
  function CheckOrCall(currentBet: int): (a: Action)
    ensures a == Check <==> currentBet == 0
    ensures a == Check || a == Call
  {
    if currentBet == 0 then Check else Call
  }

  /**
   * The preflop table on the starting-hand tier.  `None` is the branch that
   * only reports an error and takes no action.
   */
  function PreflopAction(tier: int, currentBet: int): Option<Action>
  {
    if tier == -1 then Some(Fold)
    else if tier == 1 then Some(Raise(16))
    else if 2 <= tier <= 5 then Some(Raise(8))
    else if 6 <= tier <= 10 then Some(Raise(6))
    else if 11 <= tier <= 15 then Some(Raise(4))
    else if 16 <= tier <= 20 then Some(Raise(2))
    else if tier == 21 then Some(CheckOrCall(currentBet))
    else None
  }

  /**
   * The table used after the flop on the score of the best hand (lower is
   * better).  `None` is the branch that only reports an error.
   */
  function PostflopAction(score: int, chips: int, currentBet: int): Option<Action>
  {
    if 1 <= score <= 2 then Some(Raise(chips))
    else if 3 <= score <= 15 then Some(Raise(8))
    else if 16 <= score <= 183 then Some(Raise(6))
    else if score == 184 then Some(Raise(2))
    else if 185 <= score <= 364 then Some(CheckOrCall(currentBet))
    else if 365 <= score <= 378 then Some(Fold)
    else None
  }

  /**
   * A computer opponent's decision: before the flop from the hole cards
   * alone, afterwards from the score of its best hand.
   */
  function DetermineAction(preflop: bool, hole: seq<Card>, bestScore: int, chips: int, currentBet: int): (r: Option<Action>)
    requires preflop ==> |hole| == 2
    ensures r.Some? <==> preflop || 1 <= bestScore <= 378
    ensures r == Some(Fold) <==>
      (if preflop then RankStartingHand(hole) == -1 else 365 <= bestScore <= 378)
  {
    if preflop then PreflopAction(RankStartingHand(hole), currentBet)
    else PostflopAction(bestScore, chips, currentBet)
  }

  /** How strongly an action commits chips: fold, then check or call, then raises by size. */
  function Aggression(a: Action): int
  {
    match a
    case Fold => 0
    case Check => 1
    case Call => 1
    case Raise(n) => 2 + n
  }

  /** A better (lower) tier never leads to a weaker action before the flop. */
  lemma PreflopMonotone(t1: int, t2: int, currentBet: int)
    requires t1 == -1 || 1 <= t1 <= 21
    requires t2 == -1 || 1 <= t2 <= 21
    requires t2 != -1 && (t1 == -1 || t1 >= t2)
    ensures PreflopAction(t1, currentBet).Some? && PreflopAction(t2, currentBet).Some?
    ensures Aggression(PreflopAction(t1, currentBet).value) <= Aggression(PreflopAction(t2, currentBet).value)
  {
  }

  /**
   * A better (lower) score never leads to a weaker action after the flop,
   * provided the all-in raise of the top band is at least the quads raise.
   */
  lemma PostflopMonotone(s1: int, s2: int, chips: int, currentBet: int)
    requires 1 <= s2 <= s1 <= 378
    requires chips >= 8
    ensures PostflopAction(s1, chips, currentBet).Some? && PostflopAction(s2, chips, currentBet).Some?
    ensures Aggression(PostflopAction(s1, chips, currentBet).value) <= Aggression(PostflopAction(s2, chips, currentBet).value)
  {
  }
}
