// The poker table: six seats, the deck, the community cards, the pot and
// the state machine of one hand (preflop, flop, turn, river, showdown).
//
// Players are referred to by seat; seat i holds the player whose id is i,
// and the seat to a player's left is the next seat, wrapping from 5 to 0.
module Tables {
  import opened Cards
  import opened HandEval
  import opened Players
  import opened Payout

  datatype Round = Preflop | Flop | Turn | River | Showdown

  /** The rounds of a hand, in order. */
  const Rounds: seq<Round> := [Preflop, Flop, Turn, River, Showdown]

  /** The position of a round in the list of rounds. */
  function RoundIndex(r: Round): (i: nat)
    ensures i < |Rounds| && Rounds[i] == r
  {
    match r
    case Preflop => 0
    case Flop => 1
    case Turn => 2
    case River => 3
    case Showdown => 4
  }

  /** The round after `r`: the next entry of the list of rounds. */
  function NextRoundOf(r: Round): (n: Round)
    requires r != Showdown
    ensures RoundIndex(n) == RoundIndex(r) + 1
  {
    Rounds[RoundIndex(r) + 1]
  }

  // ---------------------------------------------------------------------
  // Seats
  // ---------------------------------------------------------------------

  /** A seat number at the six-seat table. */
  type Seat = s: nat | s < 6

  /** The seat to the left of seat `s`. */
  function NextSeat(s: nat): (r: nat)
    requires s < 6
    ensures r < 6
  {
    if s == 5 then 0 else s + 1
  }

  /** The seat `k` places to the left of seat `s`. */
  function SeatAfter(s: nat, k: nat): (r: nat)
    requires s < 6
    ensures r < 6
  {
    if k == 0 then s else NextSeat(SeatAfter(s, k - 1))
  }

  /** Moving left `k` times is adding `k` modulo six. */
  lemma {:induction false} SeatAfterIsModular(s: nat, k: nat)
    requires s < 6
    ensures SeatAfter(s, k) == (s + k) % 6
  {
    if k > 0 {
      SeatAfterIsModular(s, k - 1);
    }
  }

  /** Six moves return to the starting seat, and no fewer do. */
  lemma FullCircle(s: nat)
    requires s < 6
    ensures SeatAfter(s, 6) == s
    ensures forall k :: 0 < k < 6 ==> SeatAfter(s, k) != s
  {
    forall k | 0 <= k <= 6
      ensures SeatAfter(s, k) == (s + k) % 6
    {
      SeatAfterIsModular(s, k);
    }
  }

  /** How many moves to the left take seat `from` to seat `to`: 1..6, six when they coincide. */
  function Distance(from: nat, to: nat): nat
    requires from < 6 && to < 6
  {
    if from < to then to - from else to + 6 - from
  }

  /** How many moves to the left take seat `from` to seat `to`: 0..5. */
  function Offset(from: nat, to: nat): nat
    requires from < 6 && to < 6
  {
    if from <= to then to - from else to + 6 - from
  }

  /**
   * Going round from `start`, the seat after the one at offset `k` is at
   * offset `k + 1`, and it is `to` exactly when `k + 1` moves reach `to`.
   */
  lemma StepTowards(start: nat, to: nat, seat: nat, k: nat)
    requires start < 6 && to < 6 && seat < 6
    requires Offset(start, seat) == k < Distance(start, to)
    ensures NextSeat(seat) == to <==> k + 1 == Distance(start, to)
    ensures k + 1 < 6 ==> Offset(start, NextSeat(seat)) == k + 1
  {
  }

  // ---------------------------------------------------------------------
  // Betting arithmetic
  // ---------------------------------------------------------------------

  function MaxInt(a: int, b: int): int
  {
    if a < b then b else a
  }

  /** The chips a request of `amount` actually commits: capped at the player's stack (all-in). */
  function Committed(chips: int, amount: int): (c: int)
    ensures c <= chips && c <= amount
    ensures c == chips || c == amount
  {
    if chips < amount then chips else amount
  }

  /**
   * A player's state after a request of `amount`: the committed chips leave
   * the stack and become the shown bet, replacing (not adding to) the bet
   * shown before.
   */
  function AfterBet(s: PlayerState, amount: int): (t: PlayerState)
    ensures t.holeCards == s.holeCards && t.folded == s.folded
    ensures t.bet == Amount(s.chips - t.chips)
    ensures amount >= s.chips ==> t.chips == 0
    ensures s.chips >= 0 && amount >= 0 ==> 0 <= t.chips <= s.chips
  {
    var c := Committed(s.chips, amount);
    s.(chips := s.chips - c, bet := Amount(c))
  }

  /** A player's state after `amount` chips are added to the stack. */
  function Credited(s: PlayerState, amount: int): PlayerState
  {
    s.(chips := s.chips + amount)
  }

  /** The chips an action moves from a stack of `chips` into the pot when `currentBet` is to be matched. */
  function Contribution(chips: int, a: Action, currentBet: int): int
  {
    match a
    case Fold => 0
    case Check => 0
    case Call => Committed(chips, currentBet)
    case Raise(n) => Committed(chips, currentBet + n)
  }

  /**
   * A player's state after taking action `a` with `currentBet` to match:
   * folding sets the flag and the marker, checking changes nothing, calling
   * bets the current bet and raising bets the current bet plus the raise.
   */
  function Acted(s: PlayerState, a: Action, currentBet: int): (t: PlayerState)
    ensures t.holeCards == s.holeCards
    ensures t.chips == s.chips - Contribution(s.chips, a, currentBet)
    ensures t.folded <==> s.folded || a == Fold
  {
    match a
    case Fold => s.(folded := true, bet := FoldedMarker)
    case Check => s
    case Call => AfterBet(s, currentBet)
    case Raise(n) => AfterBet(s, currentBet + n)
  }

  /**
   * How a betting round may change a player: the hole cards stay, and a
   * player who had folded stays exactly as they were.
   */
  predicate Evolved(s: PlayerState, t: PlayerState)
  {
    t.holeCards == s.holeCards && (s.folded ==> t == s)
  }

  /** A player's state after next_round: an unfolded player's bet goes back to 0. */
  function Zeroed(s: PlayerState): PlayerState
  {
    if s.folded then s else s.(bet := Amount(0))
  }

  // ---------------------------------------------------------------------
  // Dealing
  // ---------------------------------------------------------------------

  /** The deck after the first `i` players have drawn their two hole cards. */
  function HoleRest(d: seq<Card>, i: nat): seq<Card>
  {
    if i == 0 then d else Pop(HoleRest(d, i - 1), 2).0
  }

  /** The two hole cards drawn by the player in seat `i`. */
  function HoleCardsFor(d: seq<Card>, i: nat): seq<Card>
  {
    Pop(HoleRest(d, i), 2).1
  }

  /**
   * From a deck of at least 2i cards, the first i players have taken the
   * last 2i cards, two by two from the end; nothing is lost.
   */
  lemma {:induction false} HolesFromDeck(d: seq<Card>, i: nat)
    requires 2 * i <= |d|
    ensures HoleRest(d, i) == d[..|d| - 2 * i]
    ensures 2 * i + 2 <= |d| ==> HoleCardsFor(d, i) == d[|d| - 2 * i - 2..|d| - 2 * i]
  {
    if i > 0 {
      HolesFromDeck(d, i - 1);
      assert HoleRest(d, i - 1) == d[..|d| - 2 * (i - 1)];
      assert d[..|d| - 2 * (i - 1)][..|d| - 2 * i] == d[..|d| - 2 * i];
    }
  }

  /** The burn card, then `k` cards drawn for the board, from deck `d`: the deck left and the cards shown. */
  function StreetDeal(d: seq<Card>, k: nat): (seq<Card>, seq<Card>)
  {
    Pop(Pop(d, 1).0, k)
  }

  /**
   * Dealing a street from a deck holding at least the burn card and the `k`
   * cards shown removes exactly `k + 1` cards: the deck left, the cards shown
   * and the burn card make up the deck before.
   */
  lemma StreetDealSizes(d: seq<Card>, k: nat)
    requires |d| >= k + 1
    ensures |StreetDeal(d, k).0| == |d| - k - 1 && |StreetDeal(d, k).1| == k
    ensures StreetDeal(d, k).0 + StreetDeal(d, k).1 + Pop(d, 1).1 == d
  {
  }

  // ---------------------------------------------------------------------
  // Showdown standings
  // ---------------------------------------------------------------------

  /** Every player has folded. */
  predicate AllFolded(ss: seq<PlayerState>)
  {
    forall i :: 0 <= i < |ss| ==> ss[i].folded
  }

  /** How many players have not folded: none exactly when every player has folded. */
  function CountUnfolded(ss: seq<PlayerState>): (n: nat)
    ensures n <= |ss|
    ensures n == 0 <==> AllFolded(ss)
  {
    if ss == [] then 0 else (if ss[0].folded then 0 else 1) + CountUnfolded(ss[1..])
  }

  /** The chips of all the players together. */
  function TotalChips(ss: seq<PlayerState>): int
  {
    if ss == [] then 0 else ss[0].chips + TotalChips(ss[1..])
  }

  /**
   * When only seat `k` changes, the chip total and the number of unfolded
   * players change by that seat's own difference.
   */
  lemma {:induction false} ChangeOneSeat(ss: seq<PlayerState>, ts: seq<PlayerState>, k: nat)
    requires |ss| == |ts| && k < |ss|
    requires forall i :: 0 <= i < |ss| && i != k ==> ts[i] == ss[i]
    ensures TotalChips(ts) == TotalChips(ss) - ss[k].chips + ts[k].chips
    ensures CountUnfolded(ts) ==
      CountUnfolded(ss) - (if ss[k].folded then 0 else 1) + (if ts[k].folded then 0 else 1)
  {
    if k == 0 {
      assert ss[1..] == ts[1..];
    } else {
      assert forall i :: 0 <= i < |ss| - 1 && i != k - 1 ==> ts[1..][i] == ss[1..][i];
      ChangeOneSeat(ss[1..], ts[1..], k - 1);
    }
  }

  /** Sequences that agree on every folded flag have the same number of unfolded players. */
  lemma {:induction false} SameFolds(ss: seq<PlayerState>, ts: seq<PlayerState>)
    requires |ss| == |ts|
    requires forall i :: 0 <= i < |ss| ==> ts[i].folded == ss[i].folded
    ensures CountUnfolded(ts) == CountUnfolded(ss)
  {
    if ss != [] {
      assert forall i :: 0 <= i < |ss| - 1 ==> ss[1..][i] == ss[i + 1] && ts[1..][i] == ts[i + 1];
      SameFolds(ss[1..], ts[1..]);
    }
  }

  /** Sequences that agree on every stack hold the same chips in total. */
  lemma {:induction false} SameChips(ss: seq<PlayerState>, ts: seq<PlayerState>)
    requires |ss| == |ts|
    requires forall i :: 0 <= i < |ss| ==> ts[i].chips == ss[i].chips
    ensures TotalChips(ts) == TotalChips(ss)
  {
    if ss != [] {
      assert forall i :: 0 <= i < |ss| - 1 ==> ss[1..][i] == ss[i + 1] && ts[1..][i] == ts[i + 1];
      SameChips(ss[1..], ts[1..]);
    }
  }

  /** With nobody folded, everybody counts. */
  lemma {:induction false} NoneFolded(ss: seq<PlayerState>)
    requires forall i :: 0 <= i < |ss| ==> !ss[i].folded
    ensures CountUnfolded(ss) == |ss|
  {
    if ss != [] {
      assert forall i :: 0 <= i < |ss| - 1 ==> ss[1..][i] == ss[i + 1];
      NoneFolded(ss[1..]);
    }
  }

  /** A player who has not folded is counted. */
  lemma {:induction false} UnfoldedCounts(ss: seq<PlayerState>, i: nat)
    requires i < |ss| && !ss[i].folded
    ensures CountUnfolded(ss) >= 1
  {
    if i > 0 && ss[0].folded {
      assert ss[1..][i - 1] == ss[i];
      UnfoldedCounts(ss[1..], i - 1);
    }
  }

  /** When a player is counted, some player has not folded. */
  lemma {:induction false} SomeUnfolded(ss: seq<PlayerState>)
    requires CountUnfolded(ss) >= 1
    ensures exists i :: 0 <= i < |ss| && !ss[i].folded
  {
    if ss[0].folded {
      SomeUnfolded(ss[1..]);
      var i :| 0 <= i < |ss[1..]| && !ss[1..][i].folded;
      assert ss[i + 1] == ss[1..][i];
    }
  }

  /** With exactly one player unfolded, that player is the first unfolded one. */
  lemma {:induction false} SoleUnfolded(ss: seq<PlayerState>, i: nat)
    requires i < |ss| && !ss[i].folded && CountUnfolded(ss) == 1
    ensures FirstUnfolded(ss) == i
  {
    if i > 0 {
      if ss[0].folded {
        assert ss[1..][i - 1] == ss[i];
        SoleUnfolded(ss[1..], i - 1);
      } else {
        // Seats 0 and i would both be unfolded.
        assert false;
      }
    }
  }

  /** The first player who has not folded. */
  function FirstUnfolded(ss: seq<PlayerState>): (w: nat)
    requires exists i :: 0 <= i < |ss| && !ss[i].folded
    ensures w < |ss| && !ss[w].folded
    ensures forall j :: 0 <= j < w ==> ss[j].folded
  {
    if !ss[0].folded then 0
    else
      assert exists i :: 0 <= i < |ss[1..]| && !ss[1..][i].folded by {
        var i :| 0 <= i < |ss| && !ss[i].folded;
        assert ss[1..][i - 1] == ss[i];
      }
      1 + FirstUnfolded(ss[1..])
  }

  /** Each seat's best hand from its hole cards and the community cards. */
  function BestHands(ss: seq<PlayerState>, community: seq<Card>): (bests: seq<Best>)
    ensures |bests| == |ss|
  {
    if ss == [] then [] else [BestHand(ss[0].holeCards + community)] + BestHands(ss[1..], community)
  }

  lemma {:induction false} BestHandsAt(ss: seq<PlayerState>, community: seq<Card>, i: nat)
    requires i < |ss|
    ensures BestHands(ss, community)[i] == BestHand(ss[i].holeCards + community)
  {
    if i > 0 {
      BestHandsAt(ss[1..], community, i - 1);
    }
  }

  /**
   * The standings of the unfolded players among the first `n` seats, in
   * seat order, each with the best score and hand of its seat in `bests`.
   */
  function ShowdownEntries(ss: seq<PlayerState>, bests: seq<Best>, n: nat): (es: seq<Entry>)
    requires n <= |ss| == |bests|
    ensures (exists i :: 0 <= i < n && !ss[i].folded) ==> es != []
    ensures forall e :: e in es ==>
              e.id < n && !ss[e.id].folded && e.score == bests[e.id].score && e.hand == bests[e.id].hand
    ensures forall i :: 0 <= i < n && !ss[i].folded ==> exists e :: e in es && e.id == i
  {
    if n == 0 then []
    else
      var before := ShowdownEntries(ss, bests, n - 1);
      before + (if ss[n - 1].folded then [] else [Entry(n - 1, bests[n - 1].score, bests[n - 1].hand)])
  }

  // ---------------------------------------------------------------------
  // A hand, as values
  // ---------------------------------------------------------------------

  /**
   * The betting state of a hand: the players' states seat by seat, the pot,
   * the bet to match, the seat whose turn it is, how many decisions have
   * been taken, and whether all but one player have folded.
   */
  datatype Betting = Betting(seats: seq<PlayerState>, pot: int, currentBet: int, active: Seat, next: nat, earlyWin: bool)

  /** The decision a player acts on: a folded player takes none. */
  function Decided(s: PlayerState, m: Option<Action>): Option<Action>
  {
    if s.folded then None else m
  }

  /** A player's state after decision `m` (`None` changes nothing) with `currentBet` to match. */
  function AfterTurn(s: PlayerState, m: Option<Action>, currentBet: int): PlayerState
  {
    if m.Some? then Acted(s, m.value, currentBet) else s
  }

  /** The chips decision `m` moves from a stack of `chips` into the pot. */
  function PaidIn(chips: int, m: Option<Action>, currentBet: int): int
  {
    if m.Some? then Contribution(chips, m.value, currentBet) else 0
  }

  /** The bet to match after a player with `chips` takes decision `m`: only a raise can lift it. */
  function BetAfter(currentBet: int, chips: int, m: Option<Action>): int
  {
    if m.Some? && m.value.Raise? then MaxInt(currentBet, Contribution(chips, m.value, currentBet)) else currentBet
  }

  /**
   * The active seat's turn: a folded player is skipped; an unfolded one
   * takes decision number `next` (`None` takes no action), whatever they put
   * in goes to the pot, and the decision counter moves on.
   */
  function PlayedTurn(b: Betting, moves: nat -> Option<Action>): (t: Betting)
    requires |b.seats| == 6
    ensures |t.seats| == 6
  {
    var s := b.seats[b.active];
    var m := Decided(s, moves(b.next));
    b.(seats := b.seats[b.active := AfterTurn(s, m, b.currentBet)],
       pot := b.pot + PaidIn(s.chips, m, b.currentBet),
       currentBet := BetAfter(b.currentBet, s.chips, m),
       next := if s.folded then b.next else b.next + 1)
  }

  /**
   * The body of the betting loop: the active seat's turn; then the hand is
   * won early if a single player is left unfolded, and otherwise the turn
   * passes to the next seat.
   */
  function RoundStepped(b: Betting, moves: nat -> Option<Action>): (t: Betting)
    requires |b.seats| == 6
    ensures |t.seats| == 6
  {
    var u := PlayedTurn(b, moves);
    if CountUnfolded(u.seats) == 1 then u.(earlyWin := true) else u.(active := NextSeat(u.active))
  }

  /** The rest of a betting round with `steps` turns to go; it stops at once when the hand is won early. */
  function RoundFrom(b: Betting, moves: nat -> Option<Action>, steps: nat): (r: Betting)
    requires |b.seats| == 6
    ensures |r.seats| == 6
    decreases steps
  {
    if steps == 0 then b
    else
      var t := RoundStepped(b, moves);
      if t.earlyWin then t else RoundFrom(t, moves, steps - 1)
  }

  /**
   * A turn moves chips only from the active player into the pot, takes at
   * most one decision and keeps the turn where it is.
   */
  lemma TurnConserves(b: Betting, moves: nat -> Option<Action>)
    requires |b.seats| == 6
    ensures var t := PlayedTurn(b, moves);
      TotalChips(t.seats) + t.pot == TotalChips(b.seats) + b.pot &&
      b.next <= t.next <= b.next + 1 && t.active == b.active && t.earlyWin == b.earlyWin
  {
    ChangeOneSeat(b.seats, PlayedTurn(b, moves).seats, b.active);
  }

  /** A turn folds at most one player and keeps the turn where it is. */
  lemma TurnFoldsOne(b: Betting, moves: nat -> Option<Action>)
    requires |b.seats| == 6
    ensures var t := PlayedTurn(b, moves);
      CountUnfolded(t.seats) + 1 >= CountUnfolded(b.seats) && t.active == b.active && t.earlyWin == b.earlyWin
  {
    ChangeOneSeat(b.seats, PlayedTurn(b, moves).seats, b.active);
  }

  /**
   * A turn changes no seat but the active one, keeps hole cards and leaves
   * a folded player as they were.
   */
  lemma TurnEvolves(b: Betting, moves: nat -> Option<Action>)
    requires |b.seats| == 6
    ensures var t := PlayedTurn(b, moves);
      (forall i :: 0 <= i < 6 ==> Evolved(b.seats[i], t.seats[i])) &&
      (forall i :: 0 <= i < 6 && i != b.active ==> t.seats[i] == b.seats[i]) && t.active == b.active
  {
  }

  /** One move to the left brings every other seat one place nearer. */
  lemma OffsetStep(from: nat, to: nat)
    requires from < 6 && to < 6 && from != to
    ensures Offset(NextSeat(from), to) == Offset(from, to) - 1
  {
  }

  /** Moving `k` places from the next seat is moving `k + 1` places. */
  lemma {:induction false} SeatAfterNext(s: nat, k: nat)
    requires s < 6
    ensures SeatAfter(NextSeat(s), k) == SeatAfter(s, k + 1)
  {
    if k > 0 {
      SeatAfterNext(s, k - 1);
    }
  }

  /** `Distance(from, to)` moves to the left take seat `from` to seat `to`. */
  lemma DistanceReaches(from: nat, to: nat)
    requires from < 6 && to < 6
    ensures SeatAfter(from, Distance(from, to)) == to
  {
    SeatAfterIsModular(from, Distance(from, to));
  }

  /** A betting round creates and loses no chip and takes at most one decision a turn. */
  lemma {:induction false} RoundConserves(b: Betting, moves: nat -> Option<Action>, steps: nat)
    requires |b.seats| == 6
    decreases steps
    ensures var r := RoundFrom(b, moves, steps);
      TotalChips(r.seats) + r.pot == TotalChips(b.seats) + b.pot && b.next <= r.next <= b.next + steps
  {
    if steps > 0 {
      TurnConserves(b, moves);
      var t := RoundStepped(b, moves);
      if !t.earlyWin {
        RoundConserves(t, moves, steps - 1);
      }
    }
  }

  /** A betting round keeps every player's hole cards, and a folded player stays exactly as they were. */
  lemma {:induction false} RoundEvolves(b: Betting, moves: nat -> Option<Action>, steps: nat)
    requires |b.seats| == 6
    decreases steps
    ensures var r := RoundFrom(b, moves, steps);
      forall i :: 0 <= i < 6 ==> Evolved(b.seats[i], r.seats[i])
  {
    if steps > 0 {
      TurnEvolves(b, moves);
      var t := RoundStepped(b, moves);
      assert t.seats == PlayedTurn(b, moves).seats;
      if !t.earlyWin {
        RoundEvolves(t, moves, steps - 1);
        var r := RoundFrom(t, moves, steps - 1);
        forall i | 0 <= i < 6
          ensures Evolved(b.seats[i], r.seats[i])
        {
          assert Evolved(b.seats[i], t.seats[i]) && Evolved(t.seats[i], r.seats[i]);
        }
      }
    }
  }

  /** A betting round with `steps` turns to go leaves the seats it does not reach untouched. */
  lemma {:induction false} RoundReaches(b: Betting, moves: nat -> Option<Action>, steps: nat)
    requires |b.seats| == 6
    decreases steps
    ensures var r := RoundFrom(b, moves, steps);
      forall i :: 0 <= i < 6 && Offset(b.active, i) >= steps ==> r.seats[i] == b.seats[i]
  {
    if steps > 0 {
      TurnEvolves(b, moves);
      var t := RoundStepped(b, moves);
      assert t.seats == PlayedTurn(b, moves).seats;
      if !t.earlyWin {
        RoundReaches(t, moves, steps - 1);
        forall i | 0 <= i < 6 && Offset(b.active, i) >= steps
          ensures Offset(t.active, i) >= steps - 1
        {
          OffsetStep(b.active, i);
        }
      }
    }
  }

  /**
   * A betting round that starts with two or more players in the hand ends
   * won early exactly when one player is left, and otherwise with two or
   * more left.
   */
  lemma {:induction false} RoundEnds(b: Betting, moves: nat -> Option<Action>, steps: nat)
    requires |b.seats| == 6 && !b.earlyWin && CountUnfolded(b.seats) >= 2
    decreases steps
    ensures var r := RoundFrom(b, moves, steps);
      (r.earlyWin <==> CountUnfolded(r.seats) == 1) && (!r.earlyWin ==> CountUnfolded(r.seats) >= 2)
  {
    if steps > 0 {
      var u := PlayedTurn(b, moves);
      TurnFoldsOne(b, moves);
      if CountUnfolded(u.seats) != 1 {
        RoundEnds(u.(active := NextSeat(b.active)), moves, steps - 1);
      }
    }
  }

  /** A betting round that is not won early ends with the turn `steps` seats round. */
  lemma {:induction false} RoundGoesRound(b: Betting, moves: nat -> Option<Action>, steps: nat)
    requires |b.seats| == 6
    decreases steps
    ensures var r := RoundFrom(b, moves, steps);
      !r.earlyWin ==> r.active == SeatAfter(b.active, steps)
  {
    if steps > 0 {
      var t := RoundStepped(b, moves);
      if !t.earlyWin {
        RoundGoesRound(t, moves, steps - 1);
        SeatAfterNext(b.active, steps - 1);
      }
    }
  }

  /**
   * A hand in play, as values: the round, the community cards, the deck
   * and the betting state.
   */
  datatype HandState = HandState(round: Round, community: seq<Card>, deck: seq<Card>, betting: Betting)

  /** Every player's state with the two hole cards dealt to their seat from deck `d`. */
  function WithHoleCards(ss: seq<PlayerState>, d: seq<Card>): seq<PlayerState>
    requires |ss| == 6
  {
    [ss[0].(holeCards := ss[0].holeCards + HoleCardsFor(d, 0)), ss[1].(holeCards := ss[1].holeCards + HoleCardsFor(d, 1)),
     ss[2].(holeCards := ss[2].holeCards + HoleCardsFor(d, 2)), ss[3].(holeCards := ss[3].holeCards + HoleCardsFor(d, 3)),
     ss[4].(holeCards := ss[4].holeCards + HoleCardsFor(d, 4)), ss[5].(holeCards := ss[5].holeCards + HoleCardsFor(d, 5))]
  }

  /** Seat `i` of the dealt seats is seat `i` with its two hole cards added. */
  lemma HoleCardsAt(ss: seq<PlayerState>, d: seq<Card>)
    requires |ss| == 6
    ensures forall i :: 0 <= i < 6 ==> WithHoleCards(ss, d)[i] == ss[i].(holeCards := ss[i].holeCards + HoleCardsFor(d, i))
  {
  }

  /** Every player's state after next_round. */
  function ZeroedAll(ss: seq<PlayerState>): seq<PlayerState>
    requires |ss| == 6
  {
    [Zeroed(ss[0]), Zeroed(ss[1]), Zeroed(ss[2]), Zeroed(ss[3]), Zeroed(ss[4]), Zeroed(ss[5])]
  }

  /**
   * deal_cards on a hand: preflop every seat draws two hole cards; on the
   * flop a card is burnt and three are shown, on the turn and the river a
   * card is burnt and one is shown; nothing is dealt at showdown.
   */
  function Dealt(h: HandState): (d: HandState)
    requires |h.betting.seats| == 6
    ensures d.round == h.round && |d.betting.seats| == 6
  {
    match h.round
    case Preflop =>
      h.(deck := HoleRest(h.deck, 6), betting := h.betting.(seats := WithHoleCards(h.betting.seats, h.deck)))
    case Flop => h.(community := h.community + StreetDeal(h.deck, 3).1, deck := StreetDeal(h.deck, 3).0)
    case Turn => h.(community := h.community + StreetDeal(h.deck, 1).1, deck := StreetDeal(h.deck, 1).0)
    case River => h.(community := h.community + StreetDeal(h.deck, 1).1, deck := StreetDeal(h.deck, 1).0)
    case Showdown => h
  }

  /** next_round on a hand: the next round, nothing to match and every unfolded player's bet back to 0. */
  function AfterNextRound(h: HandState): (n: HandState)
    requires h.round != Showdown && |h.betting.seats| == 6
    ensures RoundIndex(n.round) == RoundIndex(h.round) + 1 && |n.betting.seats| == 6
  {
    h.(round := NextRoundOf(h.round), betting := h.betting.(seats := ZeroedAll(h.betting.seats), currentBet := 0))
  }

  /**
   * One round of game_loop on a hand: the round's cards are dealt, then the
   * betting goes round from the active seat until the turn reaches `left`.
   */
  function PlayedRound(h: HandState, left: nat, moves: nat -> Option<Action>): (p: HandState)
    requires |h.betting.seats| == 6 && left < 6
    ensures p.round == h.round && |p.betting.seats| == 6
  {
    var d := Dealt(h);
    d.(betting := RoundFrom(d.betting, moves, Distance(d.betting.active, left)))
  }

  /**
   * The rounds of game_loop from hand `h` on: until showdown, each round is
   * played and, unless it ended in an early win, the hand moves on to the
   * next round.
   */
  function RoundsFrom(h: HandState, left: nat, moves: nat -> Option<Action>): (r: HandState)
    requires |h.betting.seats| == 6 && left < 6
    ensures |r.betting.seats| == 6
    decreases 4 - RoundIndex(h.round)
  {
    if h.round == Showdown then h
    else
      var p := PlayedRound(h, left, moves);
      if p.betting.earlyWin then p else RoundsFrom(AfterNextRound(p), left, moves)
  }

  /**
   * Dealing moves no chip and folds nobody: the chip total, the pot, the
   * folded flags and the number of players still in stay.
   */
  lemma DealtKeeps(h: HandState)
    requires |h.betting.seats| == 6
    ensures var d := Dealt(h);
      TotalChips(d.betting.seats) + d.betting.pot == TotalChips(h.betting.seats) + h.betting.pot &&
      CountUnfolded(d.betting.seats) == CountUnfolded(h.betting.seats) &&
      d.betting.earlyWin == h.betting.earlyWin &&
      forall i :: 0 <= i < 6 ==> d.betting.seats[i].folded == h.betting.seats[i].folded
  {
    if h.round == Preflop {
      var ss := h.betting.seats;
      var ts := WithHoleCards(ss, h.deck);
      HoleCardsAt(ss, h.deck);
      SameChips(ss, ts);
      SameFolds(ss, ts);
    } else {
      assert Dealt(h).betting == h.betting;
    }
  }

  /**
   * next_round moves no chip and folds nobody: the chip total, the pot, the
   * folded flags and the number of players still in stay.
   */
  lemma NextRoundKeeps(h: HandState)
    requires h.round != Showdown && |h.betting.seats| == 6
    ensures var n := AfterNextRound(h);
      TotalChips(n.betting.seats) + n.betting.pot == TotalChips(h.betting.seats) + h.betting.pot &&
      CountUnfolded(n.betting.seats) == CountUnfolded(h.betting.seats) &&
      n.betting.earlyWin == h.betting.earlyWin &&
      forall i :: 0 <= i < 6 ==> n.betting.seats[i].folded == h.betting.seats[i].folded
  {
    var ss := h.betting.seats;
    var ts := ZeroedAll(ss);
    SameChips(ss, ts);
    SameFolds(ss, ts);
  }

  /**
   * A hand that enters its rounds with two or more players creates and loses
   * no chip, never unfolds a player, and ends either won early with one
   * player left or at showdown with two or more.
   */
  lemma {:induction false} RoundsEnd(h: HandState, left: nat, moves: nat -> Option<Action>)
    requires |h.betting.seats| == 6 && left < 6
    requires !h.betting.earlyWin && CountUnfolded(h.betting.seats) >= 2
    decreases 4 - RoundIndex(h.round)
    ensures var r := RoundsFrom(h, left, moves);
      TotalChips(r.betting.seats) + r.betting.pot == TotalChips(h.betting.seats) + h.betting.pot &&
      (forall i :: 0 <= i < 6 && h.betting.seats[i].folded ==> r.betting.seats[i].folded) &&
      (r.betting.earlyWin <==> CountUnfolded(r.betting.seats) == 1) &&
      (!r.betting.earlyWin ==> r.round == Showdown && CountUnfolded(r.betting.seats) >= 2)
  {
    if h.round != Showdown {
      var d := Dealt(h);
      DealtKeeps(h);
      var steps := Distance(d.betting.active, left);
      RoundConserves(d.betting, moves, steps);
      RoundEvolves(d.betting, moves, steps);
      RoundEnds(d.betting, moves, steps);
      var p := PlayedRound(h, left, moves);
      if !p.betting.earlyWin {
        NextRoundKeeps(p);
        RoundsEnd(AfterNextRound(p), left, moves);
      }
    }
  }

  // ---------------------------------------------------------------------
  // The table
  // ---------------------------------------------------------------------
  class Table {
    var currRound: Round
    var community: seq<Card>
    const players: seq<Player>
    /** The seat holding the dealer coin; none before the first hand. */
    var dealer: Option<nat>
    /** The seat whose turn it is. */
    var active: Seat
    /** The deck of the hand; between hands it is filled again as a new deck. */
    const deck: Deck
    var pot: int
    const minimumBet: int
    var currentBet: int

    /** Six seats, seat i holding the player with id i. */
    predicate Seated()
    {
      |players| == 6 && (forall i :: 0 <= i < 6 ==> players[i].id == i) &&
      forall i :: 0 <= i < 6 ==> players[i] as object != this
    }

    /** The players' states, seat by seat. */
    function States(): (ss: seq<PlayerState>)
      requires Seated()
      reads players
      ensures |ss| == 6
      ensures forall i :: 0 <= i < 6 ==> ss[i] == players[i].State()
    {
      [players[0].State(), players[1].State(), players[2].State(),
       players[3].State(), players[4].State(), players[5].State()]
    }

    /** A new table: preflop, no cards shown, a new deck, an empty pot and the minimum bet to match. */
    constructor (minBet: int, seats: seq<Player>)
      requires |seats| == 6 && forall i :: 0 <= i < 6 ==> seats[i].id == i
      ensures Seated() && players == seats
      ensures currRound == Preflop && community == [] && dealer == None && active == 0
      ensures fresh(deck) && deck.cards == StandardDeck()
      ensures pot == 0 && minimumBet == minBet && currentBet == minBet
    {
      currRound := Preflop;
      community := [];
      players := seats;
      dealer := None;
      active := 0;
      deck := new Deck();
      pot := 0;
      minimumBet := minBet;
      currentBet := minBet;
    }

    /**
     * add_player_bet: the request is capped at the player's chips; the
     * committed chips move from the stack into the pot, become the player's
     * shown bet, and raise the bet to match if they exceed it.
     */
    method AddPlayerBet(p: Player, amount: int)
      modifies this`pot, this`currentBet, p`chips, p`bet
      ensures p.State() == AfterBet(old(p.State()), amount)
      ensures pot == old(pot) + Committed(old(p.chips), amount)
      ensures currentBet == MaxInt(old(currentBet), Committed(old(p.chips), amount))
      ensures p.chips + pot == old(p.chips) + old(pot)
    {
      var verified := if p.chips < amount then p.chips else amount;
      pot := pot + verified;
      p.chips := p.chips - verified;
      p.bet := Amount(verified);
      if verified > currentBet {
        currentBet := verified;
      }
    }

    /** call_bet: request the current bet. */
    method CallBet(p: Player)
      modifies this`pot, this`currentBet, p`chips, p`bet
      ensures p.State() == AfterBet(old(p.State()), old(currentBet))
      ensures pot == old(pot) + Committed(old(p.chips), old(currentBet))
      ensures currentBet == old(currentBet)
    {
      AddPlayerBet(p, currentBet);
    }

    /** raise_bet: request the current bet plus `amount`. */
    method RaiseBet(p: Player, amount: int)
      modifies this`pot, this`currentBet, p`chips, p`bet
      ensures p.State() == AfterBet(old(p.State()), old(currentBet) + amount)
      ensures pot == old(pot) + Committed(old(p.chips), old(currentBet) + amount)
      ensures currentBet == MaxInt(old(currentBet), Committed(old(p.chips), old(currentBet) + amount))
    {
      AddPlayerBet(p, currentBet + amount);
    }

    /** The player in `seat` takes action `a`; checking changes nothing. */
    method ApplyAction(seat: nat, a: Action)
      requires Seated() && seat < 6
      modifies this`pot, this`currentBet, players[seat]
      ensures players[seat].State() == Acted(old(players[seat].State()), a, old(currentBet))
      ensures forall i :: 0 <= i < 6 && i != seat ==> players[i].State() == old(players[i].State())
      ensures pot == old(pot) + Contribution(old(players[seat].chips), a, old(currentBet))
      ensures currentBet == (if a.Raise? then MaxInt(old(currentBet), Contribution(old(players[seat].chips), a, old(currentBet)))
                             else old(currentBet))
    {
      var p := players[seat];
      match a
      case Fold => p.FoldHand();
      case Check =>
      case Call => CallBet(p);
      case Raise(n) => RaiseBet(p, n);
    }

    /**
     * next_round: the next round of the list, nothing to match, and every
     * unfolded player's shown bet back to 0; folded players keep their marker.
     */
    method NextRound()
      requires Seated() && currRound != Showdown
      modifies this`currRound, this`currentBet, players
      ensures currRound == NextRoundOf(old(currRound)) && currentBet == 0
      ensures forall i :: 0 <= i < 6 ==> players[i].State() == Zeroed(old(players[i].State()))
    {
      currRound := Rounds[RoundIndex(currRound) + 1];
      currentBet := 0;
      for i := 0 to 6
        modifies players
        invariant forall j :: 0 <= j < i ==> players[j].State() == Zeroed(old(players[j].State()))
        invariant forall j :: i <= j < 6 ==> players[j].State() == old(players[j].State())
      {
        if !players[i].folded {
          players[i].bet := Amount(0);
        }
      }
    }

    /**
     * deal_cards: preflop every player draws two hole cards in seat order;
     * on the flop a card is burnt and three are shown; on the turn and the
     * river a card is burnt and one is shown; nothing is dealt at showdown.
     * `next`, the number of decisions taken so far, only names the hand
     * state the table holds before and after; dealing leaves it as it is.
     */
    method DealCards(ghost next: nat)
      requires Seated()
      modifies this`community, deck, players
      ensures Snap(next, false) == Dealt(old(Snap(next, false)))
      ensures old(currRound) == Preflop ==>
        community == old(community) && deck.cards == HoleRest(old(deck.cards), |players|)
      ensures old(currRound) == Flop ==>
        community == old(community) + StreetDeal(old(deck.cards), 3).1 && deck.cards == StreetDeal(old(deck.cards), 3).0
      ensures old(currRound) == Turn || old(currRound) == River ==>
        community == old(community) + StreetDeal(old(deck.cards), 1).1 && deck.cards == StreetDeal(old(deck.cards), 1).0
      ensures old(currRound) == Showdown ==>
        community == old(community) && deck.cards == old(deck.cards)
      ensures forall i :: 0 <= i < 6 ==>
        players[i].State() == old(players[i].State()).(holeCards := old(players[i].holeCards) +
          if old(currRound) == Preflop then HoleCardsFor(old(deck.cards), i) else [])
    {
      ghost var h := Snap(next, false);
      match currRound {
        case Preflop =>
          DealHoleCards();
          HoleCardsAt(h.betting.seats, h.deck);
          MirroredStates(WithHoleCards(h.betting.seats, h.deck));
        case Flop =>
          DealStreet(3);
        case Turn =>
          DealStreet(1);
        case River =>
          DealStreet(1);
        case Showdown =>
      }
    }

    /** Every player, in seat order, draws two hole cards. */
    method DealHoleCards()
      requires Seated()
      modifies deck, players
      ensures deck.cards == HoleRest(old(deck.cards), |players|)
      ensures forall i :: 0 <= i < 6 ==>
        players[i].State() == old(players[i].State()).(holeCards := old(players[i].holeCards) + HoleCardsFor(old(deck.cards), i))
    {
      for i := 0 to 6
        invariant deck.cards == HoleRest(old(deck.cards), i)
        invariant forall j :: 0 <= j < i ==>
          players[j].State() == old(players[j].State()).(holeCards := old(players[j].holeCards) + HoleCardsFor(old(deck.cards), j))
        invariant forall j :: i <= j < 6 ==> players[j].State() == old(players[j].State())
      {
        DealHole(i);
      }
    }

    /** The player in `seat` draws two cards from the deck into their hole cards. */
    method DealHole(seat: nat)
      requires Seated() && seat < 6
      modifies deck, players[seat]
      ensures deck.cards == Pop(old(deck.cards), 2).0
      ensures players[seat].State() == old(players[seat].State()).(holeCards := old(players[seat].holeCards) + Pop(old(deck.cards), 2).1)
      ensures forall j :: 0 <= j < 6 && j != seat ==> players[j].State() == old(players[j].State())
    {
      var drawn := deck.DrawCards(2);
      players[seat].holeCards := players[seat].holeCards + drawn;
    }

    /** A card is burnt and `k` cards are added to the community cards. */
    method DealStreet(k: nat)
      modifies this`community, deck
      ensures community == old(community) + StreetDeal(old(deck.cards), k).1
      ensures deck.cards == StreetDeal(old(deck.cards), k).0
    {
      var burned := deck.DrawCards(1);
      var shown := deck.DrawCards(k);
      community := community + shown;
    }

    /**
     * reset_table: back to preflop with no cards shown, a full new deck,
     * an empty pot and the minimum bet to match; every player is reset and
     * keeps their chips.
     */
    method ResetTable()
      requires Seated()
      modifies this`currRound, this`community, deck, this`pot, this`currentBet, players
      ensures currRound == Preflop && community == [] && pot == 0 && currentBet == minimumBet
      ensures deck.cards == StandardDeck()
      ensures forall i :: 0 <= i < 6 ==> States()[i] == PlayerState([], false, old(States()[i].chips), Amount(0))
    {
      currRound := Preflop;
      community := [];
      deck.cards := StandardDeck();
      pot := 0;
      currentBet := minimumBet;
      for i := 0 to 6
        modifies players
        invariant forall j :: 0 <= j < i ==> players[j].State() == PlayerState([], false, old(players[j].chips), Amount(0))
        invariant forall j :: i <= j < 6 ==> players[j].State() == old(players[j].State())
      {
        players[i].ResetSelf();
      }
    }

    /**
     * setup_preflop: the deck is shuffled; the dealer coin goes to
     * `firstDealer` on the first hand and to the next seat afterwards; the
     * next two seats post the small blind (half the bet to match) and the
     * big blind (the bet to match); the seat after them acts first.
     * `rolls` stands for the random choices of the shuffle and
     * `firstDealer` for the randomly chosen first dealer.
     */
    method SetupPreflop(rolls: seq<nat>, firstDealer: nat)
      requires Seated() && firstDealer < 6 && (dealer.Some? ==> dealer.value < 6)
      modifies deck, this`dealer, this`active, this`pot, this`currentBet, players
      ensures dealer == Some(if old(dealer).None? then firstDealer else NextSeat(old(dealer).value))
      ensures active == NextSeat(NextSeat(NextSeat(dealer.value)))
      ensures |deck.cards| == |old(deck.cards)| && multiset(deck.cards) == multiset(old(deck.cards))
      ensures var small := NextSeat(dealer.value);
        var big := NextSeat(small);
        var smallBet := Committed(old(players[small].chips), old(currentBet) / 2);
        var toMatch := MaxInt(old(currentBet), smallBet);
        var bigBet := Committed(old(players[big].chips), toMatch);
        players[small].State() == AfterBet(old(players[small].State()), old(currentBet) / 2) &&
        players[big].State() == AfterBet(old(players[big].State()), toMatch) &&
        (forall i :: 0 <= i < 6 && i != small && i != big ==> players[i].State() == old(players[i].State())) &&
        pot == old(pot) + smallBet + bigBet &&
        currentBet == MaxInt(toMatch, bigBet)
    {
      deck.Shuffle(rolls);
      dealer := if dealer.None? then Some(firstDealer) else Some(NextSeat(dealer.value));
      var small := NextSeat(dealer.value);
      var big := NextSeat(small);
      AddPlayerBet(players[small], currentBet / 2);
      AddPlayerBet(players[big], currentBet);
      active := NextSeat(big);
    }

    /** handle_early_win: the first (and only) unfolded player takes the pot. */
    method HandleEarlyWin()
      requires Seated() && exists i :: 0 <= i < 6 && !States()[i].folded
      modifies this`pot, players
      ensures var w := FirstUnfolded(old(States()));
        forall i :: 0 <= i < 6 ==>
          players[i].State() == if i == w then Credited(old(players[i].State()), old(pot)) else old(players[i].State())
      ensures pot == 0
    {
      var w := FirstUnfolded(States());
      players[w].chips := players[w].chips + pot;
      pot := 0;
    }

    /** split_pot: every player whose id is in `tied` receives the split share of the pot. */
    method SplitPot(tied: seq<nat>)
      requires Seated() && tied != []
      modifies players
      ensures forall i :: 0 <= i < 6 ==>
        players[i].State() == Credited(old(players[i].State()), if i in tied then SplitAmount(pot, |tied|) else 0)
    {
      var share := (pot + |tied| - pot % |tied|) / |tied|;
      for i := 0 to 6
        invariant forall j :: 0 <= j < i ==>
          players[j].State() == Credited(old(players[j].State()), if j in tied then share else 0)
        invariant forall j :: i <= j < 6 ==> players[j].State() == old(players[j].State())
      {
        if players[i].id in tied {
          players[i].chips := players[i].chips + share;
        }
      }
    }

    /** The scored entries of the players still in the hand, in seat order. */
    method Standings() returns (entries: seq<Entry>)
      requires Seated()
      ensures entries == ShowdownEntries(States(), BestHands(States(), community), |players|)
    {
      ghost var ss := States();
      entries := [];
      for i := 0 to 6
        invariant entries == ShowdownEntries(ss, BestHands(ss, community), i)
      {
        assert players[i].State() == ss[i];
        BestHandsAt(ss, community, i);
        if !players[i].folded {
          var best := GetBestHand(players[i].holeCards + community);
          entries := entries + [Entry(i, best.score, best.hand)];
        }
      }
    }

    /**
     * Paying out a showdown outcome: a winner, looked up among the players
     * still in the hand, takes the pot; a split pays every tied player; the
     * pot is emptied in every case.
     */
    method PayOutcome(o: Outcome)
      requires Seated()
      requires o.Split? ==> o.ids != []
      requires o.Winner? ==> o.id < 6 && !players[o.id].folded
      modifies this`pot, players
      ensures pot == 0 && community == old(community)
      ensures forall i :: 0 <= i < 6 ==>
        players[i].State() == Credited(old(players[i].State()), Winnings(o, old(pot), i))
    {
      match o {
        case Winner(w) =>
          players[w].chips := players[w].chips + pot;
        case Split(ids) =>
          SplitPot(ids);
        case NoPayout =>
      }
      pot := 0;
    }

    /**
     * The outcome of a showdown among the players still in the hand; a
     * winner it names is one of them.
     */
    method DecideShowdown() returns (outcome: Outcome)
      requires Seated() && exists i :: 0 <= i < 6 && !States()[i].folded
      ensures outcome == ShowdownOutcome(ShowdownEntries(old(States()), BestHands(old(States()), old(community)), |players|))
      ensures outcome.Split? ==> outcome.ids != []
      ensures outcome.Winner? ==> outcome.id < 6 && !players[outcome.id].folded
      ensures pot == old(pot) && forall i :: 0 <= i < 6 ==> players[i].State() == old(players[i].State())
    {
      ghost var ss := States();
      var entries := Standings();
      outcome := ShowdownOutcome(entries);
      if outcome.Winner? {
        OutcomePaysEntrants(entries);
        ghost var e :| e in entries && e.id == outcome.id;
        assert !ss[e.id].folded;
      }
    }

    /**
     * handle_showdown: every unfolded player's best hand is found; a unique
     * lowest score takes the pot, a shared one goes to the tie breaker,
     * which splits the pot or names the winner; the pot is then emptied.
     */
    method HandleShowdown()
      requires Seated() && exists i :: 0 <= i < 6 && !States()[i].folded
      modifies this`pot, players
      ensures pot == 0
      ensures forall i :: 0 <= i < 6 ==>
        players[i].State() == Credited(old(players[i].State()),
          Winnings(ShowdownOutcome(ShowdownEntries(old(States()), BestHands(old(States()), old(community)), |players|)), old(pot), i))
    {
      var outcome := DecideShowdown();
      PayOutcome(outcome);
    }

    /**
     * One turn of game_loop at `seat`: a folded player is skipped; an
     * unfolded one takes decision number `next` (`None` takes no action)
     * and the decision counter moves on.  Whatever the player puts in goes
     * to the pot.
     */
    method TakeTurn(seat: nat, moves: nat -> Option<Action>, next: nat) returns (after: nat)
      requires Seated() && seat < 6
      modifies this`pot, this`currentBet, players[seat]
      ensures after == (if old(players[seat].folded) then next else next + 1)
      ensures var m := Decided(old(players[seat].State()), moves(next));
        players[seat].State() == AfterTurn(old(players[seat].State()), m, old(currentBet)) &&
        pot == old(pot) + PaidIn(old(players[seat].chips), m, old(currentBet)) &&
        currentBet == BetAfter(old(currentBet), old(players[seat].chips), m)
      ensures Evolved(old(players[seat].State()), players[seat].State())
      ensures pot + players[seat].chips == old(pot + players[seat].chips)
      ensures forall i :: 0 <= i < 6 && i != seat ==> players[i].State() == old(players[i].State())
    {
      after := next;
      if !players[seat].folded {
        var m := moves(next);
        if m.Some? {
          ApplyAction(seat, m.value);
        }
        after := next + 1;
      }
    }

    /** `ss` holds the players' states, seat by seat. */
    ghost predicate Mirrors(ss: seq<PlayerState>)
      requires Seated()
      reads players
    {
      |ss| == 6 && forall i :: 0 <= i < 6 ==> players[i].State() == ss[i]
    }

    /** The betting state `b` is the table's, apart from the loop's decision counter and early-win flag. */
    ghost predicate Holds(b: Betting)
      requires Seated()
      reads this, players
    {
      Mirrors(b.seats) && pot == b.pot && currentBet == b.currentBet && active == b.active
    }

    /** The table's betting state, with the decision counter `next` and the early-win flag `earlyWin`. */
    ghost function Bet(next: nat, earlyWin: bool): (b: Betting)
      requires Seated()
      reads this, players
      ensures Holds(b)
    {
      Betting(States(), pot, currentBet, active, next, earlyWin)
    }

    /** The table's hand, with the decision counter `next` and the early-win flag `earlyWin`. */
    ghost function Snap(next: nat, earlyWin: bool): HandState
      requires Seated()
      reads this, players, deck
    {
      HandState(currRound, community, deck.cards, Bet(next, earlyWin))
    }

    /** A sequence that agrees with every player, seat by seat, is the table's `States()`. */
    lemma MirroredStates(ss: seq<PlayerState>)
      requires Seated() && |ss| == 6
      requires forall i :: 0 <= i < 6 ==> players[i].State() == ss[i]
      ensures States() == ss
    {
    }

    /** How many players are still in the hand, counted seat by seat. */
    method StillIn(ghost ss: seq<PlayerState>) returns (n: nat)
      requires Seated() && Mirrors(ss)
      ensures n == CountUnfolded(ss)
    {
      n := 0;
      var i := 6;
      while i > 0
        invariant 0 <= i <= 6
        invariant n == CountUnfolded(ss[i..])
      {
        i := i - 1;
        assert ss[i..][1..] == ss[i + 1..];
        if !players[i].folded {
          n := n + 1;
        }
      }
      assert ss[0..] == ss;
    }

    /** The active seat's turn, on the table held as betting state `b`. */
    method PlayTurn(moves: nat -> Option<Action>, ghost b: Betting, next: nat) returns (after: nat, ghost t: Betting)
      requires Seated() && Holds(b) && b.next == next
      modifies this`pot, this`currentBet, players[active]
      ensures t == PlayedTurn(b, moves) && Holds(t) && after == t.next
    {
      after := TakeTurn(active, moves, next);
      t := PlayedTurn(b, moves);
      assert Mirrors(t.seats);
    }

    /**
     * The body of the betting loop: the active player's turn, then the
     * early-win test, then the move to the next seat unless the hand is won.
     */
    method RoundStep(moves: nat -> Option<Action>, ghost b: Betting, next: nat)
      returns (earlyWin: bool, after: nat, ghost t: Betting)
      requires Seated() && Holds(b) && b.next == next && !b.earlyWin
      modifies this`pot, this`currentBet, this`active, players
      ensures t == RoundStepped(b, moves) && Holds(t) && after == t.next && earlyWin == t.earlyWin
    {
      ghost var u;
      after, u := PlayTurn(moves, b, next);
      var stillIn := StillIn(u.seats);
      earlyWin := stillIn == 1;
      if earlyWin {
        t := u.(earlyWin := true);
      } else {
        active := NextSeat(active);
        t := u.(active := active);
      }
    }

    /**
     * One betting round of game_loop.  From the active seat onwards every
     * unfolded player takes the decision `moves(n)`, n counting the
     * decisions taken so far (`None` is a decision that takes no action);
     * folded seats are skipped.  The round ends when the turn reaches
     * `left`, or at once when a single player is left unfolded.
     */
    method BettingRound(left: nat, moves: nat -> Option<Action>, turn: nat) returns (earlyWin: bool, next: nat)
      requires Seated() && left < 6
      requires CountUnfolded(States()) >= 2
      modifies this`pot, this`currentBet, this`active, players
      ensures Bet(next, earlyWin) == RoundFrom(old(Bet(turn, false)), moves, Distance(old(active), left))
      ensures earlyWin <==> CountUnfolded(States()) == 1
      ensures !earlyWin ==> active == left && CountUnfolded(States()) >= 2
      ensures turn <= next <= turn + Distance(old(active), left)
      ensures TotalChips(States()) + pot == old(TotalChips(States()) + pot)
      ensures forall i :: 0 <= i < 6 ==> Evolved(old(players[i].State()), players[i].State())
      ensures forall i :: 0 <= i < 6 && Offset(old(active), i) >= Distance(old(active), left) ==>
        players[i].State() == old(players[i].State())
    {
      ghost var b0 := Bet(turn, false);
      ghost var steps := Distance(active, left);
      earlyWin, next := TurnsToLeft(left, moves, turn);
      RoundConserves(b0, moves, steps);
      RoundEvolves(b0, moves, steps);
      RoundReaches(b0, moves, steps);
      RoundEnds(b0, moves, steps);
      RoundGoesRound(b0, moves, steps);
      DistanceReaches(b0.active, left);
    }

    /** The loop of a betting round: turn after turn until the turn reaches `left` or the hand is won early. */
    method TurnsToLeft(left: nat, moves: nat -> Option<Action>, turn: nat) returns (earlyWin: bool, next: nat)
      requires Seated() && left < 6
      modifies this`pot, this`currentBet, this`active, players
      ensures Bet(next, earlyWin) == RoundFrom(old(Bet(turn, false)), moves, Distance(old(active), left))
    {
      ghost var b0 := Bet(turn, false);
      ghost var steps := Distance(active, left);
      ghost var b := b0;
      ghost var k := 0;
      var roundOver := false;
      earlyWin := false;
      next := turn;
      while !roundOver
        invariant Holds(b) && b.next == next && b.earlyWin == earlyWin
        invariant k <= steps
        invariant !roundOver ==>
          !earlyWin && Offset(b0.active, active) == k < steps && RoundFrom(b, moves, steps - k) == RoundFrom(b0, moves, steps)
        invariant roundOver ==> b == RoundFrom(b0, moves, steps)
        decreases steps - k
      {
        StepTowards(b0.active, left, active, k);
        earlyWin, next, b := RoundStep(moves, b, next);
        k := k + 1;
        roundOver := earlyWin || active == left;
      }
      MirroredStates(b.seats);
    }

    /**
     * One round of game_loop: the round's cards are dealt, then the betting
     * goes round from the active seat until the turn comes back to `left`
     * or a single player is left in the hand.
     */
    method PlayRound(left: nat, moves: nat -> Option<Action>, turn: nat) returns (earlyWin: bool, next: nat)
      requires Seated() && left < 6
      requires CountUnfolded(States()) >= 2
      modifies this`community, deck, this`pot, this`currentBet, this`active, players
      ensures Snap(next, earlyWin) == PlayedRound(old(Snap(turn, false)), left, moves)
      ensures turn <= next
      ensures earlyWin <==> CountUnfolded(States()) == 1
      ensures !earlyWin ==> active == left && CountUnfolded(States()) >= 2
      ensures TotalChips(States()) + pot == old(TotalChips(States()) + pot)
    {
      ghost var d := Dealt(Snap(turn, false));
      DealtKeeps(Snap(turn, false));
      DealCards(turn);
      assert Bet(turn, false) == d.betting;
      earlyWin, next := BettingRound(left, moves, turn);
    }

    /** next_round between two rounds of game_loop; nobody folds on the way. */
    method AdvanceRound(ghost next: nat)
      requires Seated() && currRound != Showdown
      modifies this`currRound, this`currentBet, players
      ensures Snap(next, false) == AfterNextRound(old(Snap(next, false)))
      ensures currRound == NextRoundOf(old(currRound)) && currentBet == 0
      ensures forall i :: 0 <= i < 6 ==> players[i].State() == Zeroed(old(players[i].State()))
      ensures CountUnfolded(States()) == old(CountUnfolded(States()))
    {
      ghost var s0 := States();
      NextRound();
      SameFolds(s0, States());
      MirroredStates(ZeroedAll(s0));
    }

    /**
     * The rounds of game_loop: while the hand has not reached showdown, the
     * round is played and, unless it ended in an early win, the table moves
     * on to the next round.  The decision counter runs on from `turn`.
     */
    method PlayRounds(left: nat, moves: nat -> Option<Action>, turn: nat) returns (earlyWin: bool, next: nat)
      requires Seated() && left < 6
      requires CountUnfolded(States()) >= 2
      modifies this`currRound, this`community, deck, this`pot, this`currentBet, this`active, players
      ensures Snap(next, earlyWin) == RoundsFrom(old(Snap(turn, false)), left, moves)
      ensures earlyWin ==> CountUnfolded(States()) == 1
      ensures !earlyWin ==> currRound == Showdown && CountUnfolded(States()) >= 2
      ensures TotalChips(States()) + pot == old(TotalChips(States()) + pot)
    {
      ghost var h0 := Snap(turn, false);
      RoundsEnd(h0, left, moves);
      earlyWin := false;
      next := turn;
      while currRound != Showdown && !earlyWin
        invariant !earlyWin ==> RoundsFrom(Snap(next, false), left, moves) == RoundsFrom(h0, left, moves)
        invariant earlyWin ==> Snap(next, true) == RoundsFrom(h0, left, moves)
        invariant earlyWin ==> CountUnfolded(States()) == 1
        invariant !earlyWin ==> CountUnfolded(States()) >= 2
        decreases 4 - RoundIndex(currRound), if earlyWin then 0 else 1
      {
        earlyWin, next := PlayRound(left, moves, next);
        if !earlyWin {
          AdvanceRound(next);
        }
      }
    }

    /**
     * game_loop: one hand.  After the preflop setup, every round deals its
     * cards and has its betting round, starting from the seat after the big
     * blind and closing at the seat left of the dealer; a hand that all but
     * one player have folded ends at once and that player takes the pot,
     * otherwise the hand is decided at showdown.  The decisions of the
     * players come from `moves`, the shuffle from `rolls`, and the dealer of
     * the first hand is `firstDealer`.
     */
    method GameLoop(moves: nat -> Option<Action>, rolls: seq<nat>, firstDealer: nat) returns (earlyWin: bool)
      requires Seated() && currRound == Preflop && firstDealer < 6 && (dealer.Some? ==> dealer.value < 6)
      requires forall i :: 0 <= i < 6 ==> !players[i].folded
      modifies deck, this`dealer, this`active, this`pot, this`currentBet, this`currRound, this`community, players
      ensures pot == 0
      ensures earlyWin ==> CountUnfolded(States()) == 1
      ensures !earlyWin ==> currRound == Showdown
    {
      SetupPreflop(rolls, firstDealer);
      NoneFolded(States());
      var turns;
      earlyWin, turns := PlayRounds(NextSeat(dealer.value), moves, 0);
      SomeUnfolded(States());
      FinishHand(earlyWin);
    }

    /**
     * The end of game_loop: after an early win the sole player left in the
     * hand takes the pot, otherwise the showdown decides who is paid.
     */
    method FinishHand(earlyWin: bool)
      requires Seated() && exists i :: 0 <= i < 6 && !States()[i].folded
      requires earlyWin ==> CountUnfolded(States()) == 1
      modifies this`pot, players
      ensures pot == 0 && currRound == old(currRound)
      ensures earlyWin ==> CountUnfolded(States()) == 1
      ensures earlyWin ==> forall i :: 0 <= i < 6 ==>
        players[i].State() == if old(players[i].folded) then old(players[i].State()) else Credited(old(players[i].State()), old(pot))
      ensures !earlyWin ==> forall i :: 0 <= i < 6 ==>
        players[i].State() == Credited(old(players[i].State()),
          Winnings(ShowdownOutcome(ShowdownEntries(old(States()), BestHands(old(States()), old(community)), |players|)), old(pot), i))
    {
      ghost var s1 := States();
      if earlyWin {
        forall i | 0 <= i < 6 && !s1[i].folded
          ensures FirstUnfolded(s1) == i
        {
          SoleUnfolded(s1, i);
        }
        HandleEarlyWin();
        SameFolds(s1, States());
      } else {
        HandleShowdown();
      }
    }
  }
}

