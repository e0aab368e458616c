/** The hand scorer of table.rb: every 5-card hand gets one integer score,
    lower is better, and a player's best hand is the lowest-scoring 5-card
    combination of their hole cards and the community cards. */
module HandEval {
  import opened Cards

  /** Score of "no hand at all": get_best_hand starts from it. */
  const NoHand := 378

  function Abs(x: int): nat
  {
    if x < 0 then -x else x
  }

  // ---------------------------------------------------------------------------
  // Score formulas, exactly as written in check_hand_matches / check_high_card.

  function QuadsScore(q: Rank): (s: int)
    ensures 3 <= s <= 15
  {
    Abs(q - 17)
  }

  function FullHouseScore(trip: Rank, pair: Rank): (s: int)
    ensures trip != pair ==> 16 <= s <= 183
  {
    Abs(trip * 13 + (pair - (if trip == 14 then 13 else 14)) - 198)
  }

  function TripsScore(t: Rank): (s: int)
    ensures 195 <= s <= 207
  {
    Abs(t - 209)
  }

  function TwoPairScore(high: Rank, low: Rank): (s: int)
    ensures high > low ==> 208 <= s <= 351
  {
    Abs(high * 12 + low - 389)
  }

  function PairScore(p: Rank): (s: int)
    ensures 352 <= s <= 364
  {
    Abs(p - 366)
  }

  function HighCardScore(h: Rank): (s: int)
    ensures 365 <= s <= 377
  {
    Abs(h - 379)
  }

  /** Within each band a higher defining rank gives a strictly lower score. */
  lemma SingleRankBandsMonotone(a: Rank, b: Rank)
    requires a > b
    ensures QuadsScore(a) < QuadsScore(b)
    ensures TripsScore(a) < TripsScore(b)
    ensures PairScore(a) < PairScore(b)
    ensures HighCardScore(a) < HighCardScore(b)
  {
  }

  /** Full houses are ordered by trip rank, then by pair rank, and the
      formula never maps two different full houses to the same score. */
  lemma FullHouseLexicographic(t1: Rank, p1: Rank, t2: Rank, p2: Rank)
    requires t1 != p1 && t2 != p2
    ensures (t1 > t2 || (t1 == t2 && p1 > p2)) ==> FullHouseScore(t1, p1) < FullHouseScore(t2, p2)
    ensures FullHouseScore(t1, p1) == FullHouseScore(t2, p2) ==> t1 == t2 && p1 == p2
  {
  }

  /** Two pairs are ordered by the high pair, then by the low pair, injectively. */
  lemma TwoPairLexicographic(h1: Rank, l1: Rank, h2: Rank, l2: Rank)
    requires h1 > l1 && h2 > l2
    ensures (h1 > h2 || (h1 == h2 && l1 > l2)) ==> TwoPairScore(h1, l1) < TwoPairScore(h2, l2)
    ensures TwoPairScore(h1, l1) == TwoPairScore(h2, l2) ==> h1 == h2 && l1 == l2
  {
  }

  // ---------------------------------------------------------------------------
  // Rank bookkeeping.

  predicate Sorted(s: seq<Rank>)
  {
    forall i, j :: 0 <= i < j < |s| ==> s[i] <= s[j]
  }

  predicate StrictlyIncreasing(s: seq<Rank>)
  {
    forall i, j :: 0 <= i < j < |s| ==> s[i] < s[j]
  }

  function Insert(x: Rank, s: seq<Rank>): (r: seq<Rank>)
    ensures |r| == |s| + 1
    ensures multiset(r) == multiset(s) + multiset{x}
  {
    if s == [] || x <= s[0] then [x] + s
    else
      assert s == [s[0]] + s[1..];
      [s[0]] + Insert(x, s[1..])
  }

  /** Insert keeps every lower bound shared by `x` and `s`. */
  lemma {:induction false} InsertLowerBound(x: Rank, s: seq<Rank>, lo: int)
    requires lo <= x && forall i :: 0 <= i < |s| ==> lo <= s[i]
    ensures forall i :: 0 <= i < |Insert(x, s)| ==> lo <= Insert(x, s)[i]
  {
    if s != [] && x > s[0] {
      InsertLowerBound(x, s[1..], lo);
      assert Insert(x, s) == [s[0]] + Insert(x, s[1..]);
    }
  }

  lemma {:induction false} InsertSorted(x: Rank, s: seq<Rank>)
    requires Sorted(s)
    ensures Sorted(Insert(x, s))
  {
    if s != [] && x > s[0] {
      InsertSorted(x, s[1..]);
      InsertLowerBound(x, s[1..], s[0]);
      var t := Insert(x, s[1..]);
      assert Insert(x, s) == [s[0]] + t;
    }
  }

  /** The ranks of a hand in increasing order (`hand.sort_by(&:rank).map(&:rank)`). */
  function SortedRanks(hand: seq<Card>): (r: seq<Rank>)
    ensures |r| == |hand| && Sorted(r)
    ensures forall x :: multiset(r)[x] == CountRankOf(hand, x)
  {
    if hand == [] then []
    else
      var rest := SortedRanks(hand[1..]);
      InsertSorted(hand[0].rank, rest);
      Insert(hand[0].rank, rest)
  }

  lemma {:induction false} StrictlyIncreasingCountsAtMostOne(s: seq<Rank>, x: int)
    requires StrictlyIncreasing(s)
    ensures multiset(s)[x] <= 1
  {
    if s != [] {
      assert s == [s[0]] + s[1..];
      StrictlyIncreasingCountsAtMostOne(s[1..], x);
      if x == s[0] {
        assert x !in s[1..];
      }
    }
  }

  /** The cards of `hand` whose rank is not `r` (`hand.filter { |c| c.rank != r }`). */
  function WithoutRank(hand: seq<Card>, r: int): (h: seq<Card>)
    ensures CountRankOf(h, r) == 0
  {
    if hand == [] then []
    else if hand[0].rank != r then [hand[0]] + WithoutRank(hand[1..], r)
    else WithoutRank(hand[1..], r)
  }

  /** Filtering one rank out leaves the count of every other rank unchanged. */
  lemma {:induction false} WithoutRankKeepsOthers(hand: seq<Card>, r: int, x: int)
    requires x != r
    ensures CountRankOf(WithoutRank(hand, r), x) == CountRankOf(hand, x)
  {
    if hand != [] {
      WithoutRankKeepsOthers(hand[1..], r, x);
      if hand[0].rank != r {
        assert ([hand[0]] + WithoutRank(hand[1..], r))[1..] == WithoutRank(hand[1..], r);
      }
    }
  }

  /** The ranks among `top`, `top`-1, ..., 2 that occur exactly `target` times
      in `hand`, from high to low. */
  function RanksCounted(hand: seq<Card>, target: nat, top: int): seq<Rank>
    requires top <= 14
    decreases top
  {
    if top < 2 then []
    else (if CountRankOf(hand, top) == target then [top as Rank] else []) + RanksCounted(hand, target, top - 1)
  }

  /** Every rank listed occurs `target` times. */
  lemma {:induction false} RanksCountedSound(hand: seq<Card>, target: nat, top: int)
    requires top <= 14
    ensures forall i :: 0 <= i < |RanksCounted(hand, target, top)| ==>
              CountRankOf(hand, RanksCounted(hand, target, top)[i]) == target
    decreases top
  {
    if top >= 2 {
      var head: seq<Rank> := if CountRankOf(hand, top) == target then [top as Rank] else [];
      var rest := RanksCounted(hand, target, top - 1);
      var g := RanksCounted(hand, target, top);
      assert g == head + rest;
      RanksCountedSound(hand, target, top - 1);
      forall i | 0 <= i < |g|
        ensures CountRankOf(hand, g[i]) == target
      {
        if i < |head| {
          assert g[i] == head[i] == top;
        } else {
          assert g[i] == rest[i - |head|];
        }
      }
    }
  }

  /** Every rank up to `top` that occurs `target` times is listed. */
  lemma {:induction false} RanksCountedComplete(hand: seq<Card>, target: nat, top: int, r: Rank)
    requires top <= 14 && r <= top && CountRankOf(hand, r) == target
    ensures r in RanksCounted(hand, target, top)
    decreases top
  {
    var head: seq<Rank> := if CountRankOf(hand, top) == target then [top as Rank] else [];
    var rest := RanksCounted(hand, target, top - 1);
    assert RanksCounted(hand, target, top) == head + rest;
    if r < top {
      RanksCountedComplete(hand, target, top - 1, r);
    } else {
      assert head == [r];
    }
  }

  /** Every rank listed is at most `top`. */
  lemma {:induction false} RanksCountedBelow(hand: seq<Card>, target: nat, top: int)
    requires top <= 14
    ensures forall i :: 0 <= i < |RanksCounted(hand, target, top)| ==> RanksCounted(hand, target, top)[i] <= top
    decreases top
  {
    if top >= 2 {
      var head: seq<Rank> := if CountRankOf(hand, top) == target then [top as Rank] else [];
      var rest := RanksCounted(hand, target, top - 1);
      assert RanksCounted(hand, target, top) == head + rest;
      RanksCountedBelow(hand, target, top - 1);
    }
  }

  /** The ranks are listed from high to low. */
  lemma {:induction false} RanksCountedDescending(hand: seq<Card>, target: nat, top: int)
    requires top <= 14
    ensures forall i, j :: 0 <= i < j < |RanksCounted(hand, target, top)| ==>
              RanksCounted(hand, target, top)[i] > RanksCounted(hand, target, top)[j]
    decreases top
  {
    if top >= 2 {
      var head: seq<Rank> := if CountRankOf(hand, top) == target then [top as Rank] else [];
      var rest := RanksCounted(hand, target, top - 1);
      var g := RanksCounted(hand, target, top);
      assert g == head + rest;
      RanksCountedDescending(hand, target, top - 1);
      RanksCountedBelow(hand, target, top - 1);
      forall i, j | 0 <= i < j < |g|
        ensures g[i] > g[j]
      {
        assert g[j] == rest[j - |head|] <= top - 1;
        if i < |head| {
          assert g[i] == head[i] == top;
        } else {
          assert g[i] == rest[i - |head|];
        }
      }
    }
  }

  /** get_rank_grouped_hand: the keys of the hash it returns, in its order. */
  function GetRankGroupedHand(hand: seq<Card>, target: nat): seq<Rank>
  {
    RanksCounted(hand, target, 14)
  }

  /** get_rank_grouped_hand returns exactly the ranks that occur `target`
      times, in strictly descending order. */
  lemma GetRankGroupedHandExact(hand: seq<Card>, target: nat)
    ensures forall r: Rank :: r in GetRankGroupedHand(hand, target) <==> CountRankOf(hand, r) == target
    ensures var g := GetRankGroupedHand(hand, target);
      forall i, j :: 0 <= i < j < |g| ==> g[i] > g[j]
  {
    var g := GetRankGroupedHand(hand, target);
    RanksCountedSound(hand, target, 14);
    forall r: Rank
      ensures r in g <==> CountRankOf(hand, r) == target
    {
      if CountRankOf(hand, r) == target {
        RanksCountedComplete(hand, target, 14, r);
      }
      if r in g {
        var i :| 0 <= i < |g| && g[i] == r;
      }
    }
    RanksCountedDescending(hand, target, 14);
  }

  /** Sum of the counts of the ranks 2..top. */
  function SumCounts(hand: seq<Card>, top: int): nat
    decreases top
  {
    if top < 2 then 0 else CountRankOf(hand, top) + SumCounts(hand, top - 1)
  }

  lemma {:induction false} SumCountsCons(c: Card, rest: seq<Card>, top: int)
    ensures SumCounts([c] + rest, top) == SumCounts(rest, top) + (if c.rank <= top then 1 else 0)
    decreases top
  {
    assert ([c] + rest)[1..] == rest;
    if top >= 2 {
      SumCountsCons(c, rest, top - 1);
    }
  }

  /** Every card is counted once: the counts of all ranks add up to the hand size. */
  lemma {:induction false} SumCountsIsSize(hand: seq<Card>)
    ensures SumCounts(hand, 14) == |hand|
  {
    if hand != [] {
      assert hand == [hand[0]] + hand[1..];
      SumCountsCons(hand[0], hand[1..], 14);
      SumCountsIsSize(hand[1..]);
    }
  }

  lemma {:induction false} PairsWithinCounts(hand: seq<Card>, top: int)
    requires top <= 14
    ensures 2 * |RanksCounted(hand, 2, top)| <= SumCounts(hand, top)
    decreases top
  {
    if top >= 2 {
      PairsWithinCounts(hand, top - 1);
    }
  }

  /** A 5-card hand has at most two pairs (so the "ERROR" branch of the
      pair count in check_hand_matches cannot be reached). */
  lemma AtMostTwoPairs(hand: seq<Card>)
    requires |hand| == 5
    ensures |GetRankGroupedHand(hand, 2)| <= 2
    ensures |GetRankGroupedHand(hand, 2)| == 2 ==>
              GetRankGroupedHand(hand, 2)[0] > GetRankGroupedHand(hand, 2)[1]
  {
    GetRankGroupedHandExact(hand, 2);
    PairsWithinCounts(hand, 14);
    SumCountsIsSize(hand);
  }

  // ---------------------------------------------------------------------------
  // Hand categories.

  /** Ruby values compared by `==` in check_hand_flushes. */
  datatype RubyValue = RInt(i: int) | RArray(elems: seq<Card>)

  /** Possible outcomes of check_hand_flushes; NoMethodError stands for the
      call of the undefined `check_hand_straight`. */
  datatype FlushResult = Nil | Flush | StraightFlush | RoyalFlush | NoMethodError

  /** `hand.uniq { |card| card.suit }`: the first card of each suit. */
  function UniqBySuit(hand: seq<Card>, seen: set<Suit>): seq<Card>
  {
    if hand == [] then []
    else if hand[0].suit in seen then UniqBySuit(hand[1..], seen)
    else [hand[0]] + UniqBySuit(hand[1..], seen + {hand[0].suit})
  }

  /** check_hand_flushes as written: the guard compares an Array with the
      Integer 1, which never holds, so nothing but nil is ever returned. */
  function CheckHandFlushes(hand: seq<Card>): (f: FlushResult)
  {
    if RArray(UniqBySuit(hand, {})) == RInt(1) then NoMethodError else Nil
  }

  /** The flush branch is dead: no hand is ever classified as a royal flush,
      a straight flush or a flush. */
  lemma FlushBranchDead(hand: seq<Card>)
    ensures CheckHandFlushes(hand) == Nil
  {
  }

  /** The sorted ranks of the straight that check_hand_straights scores `v`:
      the five ranks ending at 199 - v, or the wheel A-2-3-4-5 for 194. */
  function StraightRanks(v: int): (rs: seq<Rank>)
    requires 185 <= v <= 194
    ensures |rs| == 5 && StrictlyIncreasing(rs)
  {
    if v == 194 then [2, 3, 4, 5, 14]
    else [195 - v, 196 - v, 197 - v, 198 - v, 199 - v]
  }

  /** The straight table of check_hand_straights, on the sorted ranks. */
  function StraightValue(rs: seq<Rank>): int
  {
    if rs == [2, 3, 4, 5, 14] then 194
    else if rs == [2, 3, 4, 5, 6] then 193
    else if rs == [3, 4, 5, 6, 7] then 192
    else if rs == [4, 5, 6, 7, 8] then 191
    else if rs == [5, 6, 7, 8, 9] then 190
    else if rs == [6, 7, 8, 9, 10] then 189
    else if rs == [7, 8, 9, 10, 11] then 188
    else if rs == [8, 9, 10, 11, 12] then 187
    else if rs == [9, 10, 11, 12, 13] then 186
    else if rs == [10, 11, 12, 13, 14] then 185
    else -1
  }

  /** check_hand_straights: 185 (broadway) .. 194 (the wheel), or -1; a
      straight's score is 199 minus its top rank, the wheel's top being 5. */
  function CheckHandStraights(hand: seq<Card>): (v: int)
    ensures v == -1 || (185 <= v <= 194 && SortedRanks(hand) == StraightRanks(v))
  {
    StraightValueSpec(SortedRanks(hand));
    StraightValue(SortedRanks(hand))
  }

  /** A row of the straight table matches exactly the ranks StraightRanks
      gives for its score. */
  lemma StraightValueSpec(rs: seq<Rank>)
    ensures StraightValue(rs) == -1 ||
            (185 <= StraightValue(rs) <= 194 && rs == StraightRanks(StraightValue(rs)))
  {
    if rs == [2, 3, 4, 5, 14] {
    } else if rs == [2, 3, 4, 5, 6] {
      assert StraightRanks(193) == rs;
    } else if rs == [3, 4, 5, 6, 7] {
      assert StraightRanks(192) == rs;
    } else if rs == [4, 5, 6, 7, 8] {
      assert StraightRanks(191) == rs;
    } else if rs == [5, 6, 7, 8, 9] {
      assert StraightRanks(190) == rs;
    } else if rs == [6, 7, 8, 9, 10] {
      assert StraightRanks(189) == rs;
    } else if rs == [7, 8, 9, 10, 11] {
      assert StraightRanks(188) == rs;
    } else if rs == [8, 9, 10, 11, 12] {
      assert StraightRanks(187) == rs;
    } else if rs == [9, 10, 11, 12, 13] {
      assert StraightRanks(186) == rs;
    } else if rs == [10, 11, 12, 13, 14] {
      assert StraightRanks(185) == rs;
    }
  }

  /** Every straight is recognised: StraightValue inverts StraightRanks. */
  lemma StraightRecognised(v: int)
    requires 185 <= v <= 194
    ensures StraightValue(StraightRanks(v)) == v
  {
    if v == 185 {} else if v == 186 {} else if v == 187 {} else if v == 188 {}
    else if v == 189 {} else if v == 190 {} else if v == 191 {} else if v == 192 {}
    else if v == 193 {} else {}
  }

  /** The trips part of check_hand_matches: a full house when the cards
      outside the trip rank form a pair, trips otherwise. */
  function TripsOrFullHouse(hand: seq<Card>, trip: Rank): int
  {
    var pairCheck := GetRankGroupedHand(WithoutRank(hand, trip), 2);
    if pairCheck == [] then TripsScore(trip) else FullHouseScore(trip, pairCheck[0])
  }

  /** The pairs part of check_hand_matches; more than two pairs would be the
      "ERROR" branch, which AtMostTwoPairs shows unreachable. */
  function PairsScore(hand: seq<Card>): int
  {
    var pairs := GetRankGroupedHand(hand, 2);
    if |pairs| == 2 then TwoPairScore(pairs[0], pairs[1])
    else if |pairs| == 1 then PairScore(pairs[0])
    else -1
  }

  /** check_hand_matches: quads first, then trips or a full house, then pairs. */
  function CheckHandMatches(hand: seq<Card>): int
  {
    var quads := GetRankGroupedHand(hand, 4);
    if quads != [] then QuadsScore(quads[0])
    else
      var trips := GetRankGroupedHand(hand, 3);
      if trips != [] then TripsOrFullHouse(hand, trips[0])
      else PairsScore(hand)
  }

  /** The pair found once the trip rank is filtered out is of another rank,
      so a full house always scores in 16..183; the full-house band is taken
      exactly when some other rank appears twice, the trips band otherwise. */
  lemma TripsOrFullHouseBand(hand: seq<Card>, trip: Rank)
    ensures var m := TripsOrFullHouse(hand, trip);
      16 <= m <= 183 || 195 <= m <= 207
    ensures var m := TripsOrFullHouse(hand, trip);
      16 <= m <= 183 <==> exists p: Rank :: p != trip && CountRankOf(hand, p) == 2
  {
    var w := WithoutRank(hand, trip);
    var pairCheck := GetRankGroupedHand(w, 2);
    GetRankGroupedHandExact(w, 2);
    forall p: Rank | p != trip
      ensures CountRankOf(w, p) == CountRankOf(hand, p)
    {
      WithoutRankKeepsOthers(hand, trip, p);
    }
    if pairCheck != [] {
      var p := pairCheck[0];
      assert p in pairCheck;
      assert p != trip && CountRankOf(hand, p) == 2;
    }
  }

  /** Filtering out a rank that does not occur `target` times leaves the
      ranks that do occur `target` times as they were. */
  lemma {:induction false} WithoutRankKeepsGroups(hand: seq<Card>, r: Rank, target: nat, top: int)
    requires top <= 14 && target > 0 && CountRankOf(hand, r) != target
    ensures RanksCounted(WithoutRank(hand, r), target, top) == RanksCounted(hand, target, top)
    decreases top
  {
    if top >= 2 {
      WithoutRankKeepsGroups(hand, r, target, top - 1);
      if top != r {
        WithoutRankKeepsOthers(hand, r, top);
      }
    }
  }

  lemma {:induction false} GroupsWithinCounts(hand: seq<Card>, top: int)
    requires top <= 14
    ensures 4 * |RanksCounted(hand, 4, top)| + 3 * |RanksCounted(hand, 3, top)| +
            2 * |RanksCounted(hand, 2, top)| <= SumCounts(hand, top)
    decreases top
  {
    if top >= 2 {
      GroupsWithinCounts(hand, top - 1);
    }
  }

  /** Quads, trips and pairs of a 5-card hand hold at most its five cards. */
  lemma GroupSizes(hand: seq<Card>)
    requires |hand| == 5
    ensures 4 * |GetRankGroupedHand(hand, 4)| + 3 * |GetRankGroupedHand(hand, 3)| +
            2 * |GetRankGroupedHand(hand, 2)| <= 5
  {
    GroupsWithinCounts(hand, 14);
    SumCountsIsSize(hand);
  }

  /** With a trip rank present, the pair check on the remaining cards sees the
      pairs of the whole hand. */
  lemma TripsOrFullHouseByGroups(hand: seq<Card>, trip: Rank)
    requires CountRankOf(hand, trip) == 3
    ensures var pairs := GetRankGroupedHand(hand, 2);
      TripsOrFullHouse(hand, trip) == if pairs == [] then TripsScore(trip) else FullHouseScore(trip, pairs[0])
  {
    WithoutRankKeepsGroups(hand, trip, 2, 14);
  }

  /** A sequence of at most two ranks holds exactly its first and its second element. */
  lemma ShortMembers(s: seq<Rank>)
    requires |s| <= 2
    ensures forall r: Rank :: r in s <==> (|s| > 0 && r == s[0]) || (|s| > 1 && r == s[1])
  {
  }

  /** The ranks that occur `target` times are the (at most two) entries of the
      group get_rank_grouped_hand returns. */
  lemma GroupMembers(hand: seq<Card>, target: nat)
    requires |GetRankGroupedHand(hand, target)| <= 2
    ensures var g := GetRankGroupedHand(hand, target);
      forall r: Rank :: CountRankOf(hand, r) == target <==> (|g| > 0 && r == g[0]) || (|g| > 1 && r == g[1])
  {
    GetRankGroupedHandExact(hand, target);
    ShortMembers(GetRankGroupedHand(hand, target));
  }

  /** check_hand_matches on a 5-card hand in terms of its groups: quads,
      trips and pairs share its five cards, so at most one quad or trip rank
      and at most two pair ranks exist, and the trips branch sees the pairs of
      the whole hand. */
  lemma GroupFacts(hand: seq<Card>)
    requires |hand| == 5
    ensures var quads, trips, pairs := GetRankGroupedHand(hand, 4), GetRankGroupedHand(hand, 3), GetRankGroupedHand(hand, 2);
      4 * |quads| + 3 * |trips| + 2 * |pairs| <= 5 &&
      (|pairs| == 2 ==> pairs[0] > pairs[1]) &&
      (forall r: Rank :: CountRankOf(hand, r) == 4 <==> |quads| > 0 && r == quads[0]) &&
      (forall r: Rank :: CountRankOf(hand, r) == 3 <==> |trips| > 0 && r == trips[0]) &&
      (forall r: Rank :: CountRankOf(hand, r) == 2 <==> (|pairs| > 0 && r == pairs[0]) || (|pairs| > 1 && r == pairs[1])) &&
      CheckHandMatches(hand) ==
        if |quads| > 0 then QuadsScore(quads[0])
        else if |trips| > 0 then (if |pairs| == 0 then TripsScore(trips[0]) else FullHouseScore(trips[0], pairs[0]))
        else if |pairs| == 2 then TwoPairScore(pairs[0], pairs[1])
        else if |pairs| == 1 then PairScore(pairs[0])
        else -1
  {
    GroupSizes(hand);
    AtMostTwoPairs(hand);
    GroupMembers(hand, 4);
    GroupMembers(hand, 3);
    GroupMembers(hand, 2);
    var trips := GetRankGroupedHand(hand, 3);
    if trips != [] {
      TripsOrFullHouseByGroups(hand, trips[0]);
    }
  }

  /** A 5-card hand scores in the full-house band exactly when one rank appears
      three times and another twice, and then its score is FullHouseScore of
      those two ranks. */
  lemma FullHouseBand(hand: seq<Card>)
    requires |hand| == 5
    ensures 16 <= CheckHandMatches(hand) <= 183 <==>
              exists t: Rank, p: Rank :: CountRankOf(hand, t) == 3 && CountRankOf(hand, p) == 2
    ensures forall t: Rank, p: Rank :: CountRankOf(hand, t) == 3 && CountRankOf(hand, p) == 2 ==>
              CheckHandMatches(hand) == FullHouseScore(t, p)
  {
    GroupFacts(hand);
    var quads := GetRankGroupedHand(hand, 4);
    var trips := GetRankGroupedHand(hand, 3);
    var pairs := GetRankGroupedHand(hand, 2);
    if |trips| > 0 && |pairs| > 0 {
      assert |quads| == 0 && |pairs| == 1;
      assert CountRankOf(hand, trips[0]) == 3 && CountRankOf(hand, pairs[0]) == 2;
      assert CheckHandMatches(hand) == FullHouseScore(trips[0], pairs[0]);
      forall t: Rank, p: Rank | CountRankOf(hand, t) == 3 && CountRankOf(hand, p) == 2
        ensures CheckHandMatches(hand) == FullHouseScore(t, p)
      {
        assert t == trips[0] && p == pairs[0];
      }
    } else {
      assert !(16 <= CheckHandMatches(hand) <= 183);
      forall t: Rank, p: Rank
        ensures !(CountRankOf(hand, t) == 3 && CountRankOf(hand, p) == 2)
      {
      }
    }
  }

  /** A 5-card hand scores in the trips band exactly when one rank appears
      three times and none twice, and then its score is TripsScore of that rank. */
  lemma TripsBand(hand: seq<Card>)
    requires |hand| == 5
    ensures 195 <= CheckHandMatches(hand) <= 207 <==>
              exists t: Rank :: CountRankOf(hand, t) == 3 && forall p: Rank :: CountRankOf(hand, p) != 2
    ensures forall t: Rank :: CountRankOf(hand, t) == 3 && (forall p: Rank :: CountRankOf(hand, p) != 2) ==>
              CheckHandMatches(hand) == TripsScore(t)
  {
    GroupFacts(hand);
    var trips := GetRankGroupedHand(hand, 3);
    var pairs := GetRankGroupedHand(hand, 2);
    if |pairs| > 0 {
      assert CountRankOf(hand, pairs[0]) == 2;
    } else if |trips| > 0 {
      assert CountRankOf(hand, trips[0]) == 3;
      assert forall p: Rank :: CountRankOf(hand, p) != 2;
    }
  }

  /** A 5-card hand scores in the two-pair band exactly when two ranks appear
      twice each, and then its score is TwoPairScore of the higher and the lower. */
  lemma TwoPairBand(hand: seq<Card>)
    requires |hand| == 5
    ensures 208 <= CheckHandMatches(hand) <= 351 <==>
              exists hi: Rank, lo: Rank :: hi > lo && CountRankOf(hand, hi) == 2 && CountRankOf(hand, lo) == 2
    ensures forall hi: Rank, lo: Rank :: hi > lo && CountRankOf(hand, hi) == 2 && CountRankOf(hand, lo) == 2 ==>
              CheckHandMatches(hand) == TwoPairScore(hi, lo)
  {
    GroupFacts(hand);
    var pairs := GetRankGroupedHand(hand, 2);
    if |pairs| == 2 {
      assert CountRankOf(hand, pairs[0]) == 2 && CountRankOf(hand, pairs[1]) == 2;
    }
  }

  /** Two different ranks count separately among the ranks 2..`top`. */
  lemma {:induction false} TwoRanksCounted(hand: seq<Card>, top: int, a: Rank, b: Rank)
    requires a != b
    ensures SumCounts(hand, top) >= (if a <= top then CountRankOf(hand, a) else 0) +
                                    (if b <= top then CountRankOf(hand, b) else 0)
    decreases top
  {
    if top >= 2 {
      TwoRanksCounted(hand, top - 1, a, b);
    }
  }

  /** `p` appears twice in `hand` and every other rank at most once. */
  predicate LonePair(hand: seq<Card>, p: Rank)
  {
    CountRankOf(hand, p) == 2 && forall q: Rank :: q != p ==> CountRankOf(hand, q) < 2
  }

  /** A second repeated rank rules out a lone pair. */
  lemma RepeatedElsewhere(hand: seq<Card>, p: Rank, q: Rank)
    requires q != p && CountRankOf(hand, q) >= 2
    ensures !LonePair(hand, p)
  {
  }

  /** A 5-card hand scores in the one-pair band exactly when one rank appears
      twice and every other rank at most once, and then its score is
      PairScore of that rank. */
  lemma OnePairBand(hand: seq<Card>)
    requires |hand| == 5
    ensures 352 <= CheckHandMatches(hand) <= 364 <==> exists p: Rank :: LonePair(hand, p)
    ensures forall p: Rank :: LonePair(hand, p) ==> CheckHandMatches(hand) == PairScore(p)
  {
    GroupFacts(hand);
    SumCountsIsSize(hand);
    var quads := GetRankGroupedHand(hand, 4);
    var trips := GetRankGroupedHand(hand, 3);
    var pairs := GetRankGroupedHand(hand, 2);
    if |quads| == 0 && |trips| == 0 && |pairs| == 1 {
      var p := pairs[0];
      assert CountRankOf(hand, p) == 2;
      forall q: Rank | q != p
        ensures CountRankOf(hand, q) < 2
      {
        TwoRanksCounted(hand, 14, p, q);
      }
      assert 352 <= CheckHandMatches(hand) <= 364;
      assert LonePair(hand, p);
    } else {
      assert !(352 <= CheckHandMatches(hand) <= 364) by {
        if |quads| == 0 && |trips| > 0 && |pairs| > 0 {
          assert CountRankOf(hand, trips[0]) == 3 && CountRankOf(hand, pairs[0]) == 2;
        }
      }
      forall p: Rank
        ensures !LonePair(hand, p)
      {
        if |pairs| > 1 {
          RepeatedElsewhere(hand, p, if p == pairs[0] then pairs[1] else pairs[0]);
        } else if |quads| > 0 && p != quads[0] {
          RepeatedElsewhere(hand, p, quads[0]);
        } else if |trips| > 0 && p != trips[0] {
          RepeatedElsewhere(hand, p, trips[0]);
        }
      }
    }
  }

  /** check_hand_matches' bands: quads 3..15, full house 16..183, trips
      195..207, two pair 208..351, one pair 352..364, or -1 when no rank repeats. */
  lemma MatchBand(hand: seq<Card>)
    requires |hand| == 5
    ensures var m := CheckHandMatches(hand);
      m == -1 || 3 <= m <= 183 || 195 <= m <= 364
    ensures var m := CheckHandMatches(hand);
      (3 <= m <= 15 <==> GetRankGroupedHand(hand, 4) != []) &&
      (m == -1 <==> GetRankGroupedHand(hand, 4) == [] && GetRankGroupedHand(hand, 3) == [] &&
                    GetRankGroupedHand(hand, 2) == [])
  {
    var quads := GetRankGroupedHand(hand, 4);
    var trips := GetRankGroupedHand(hand, 3);
    if quads == [] && trips != [] {
      TripsOrFullHouseBand(hand, trips[0]);
    }
    AtMostTwoPairs(hand);
  }

  /** check_high_card: 379 minus the highest rank of the hand. */
  function CheckHighCard(hand: seq<Card>): (s: int)
    requires hand != []
    ensures 365 <= s <= 377
  {
    var rs := SortedRanks(hand);
    HighCardScore(rs[|rs| - 1])
  }

  /** The highest rank in a non-empty hand is the last of its sorted ranks,
      so check_high_card is 379 minus the maximum rank. */
  lemma HighCardIsMaximum(hand: seq<Card>, c: Card)
    requires c in hand
    ensures CheckHighCard(hand) <= HighCardScore(c.rank)
    ensures exists d :: d in hand && CheckHighCard(hand) == HighCardScore(d.rank)
  {
    var rs := SortedRanks(hand);
    assert CountRankOf(hand, c.rank) > 0 by { CountRankPositive(hand, c); }
    assert c.rank in multiset(rs);
    var k :| 0 <= k < |rs| && rs[k] == c.rank;
    assert rs[k] <= rs[|rs| - 1];
    assert rs[|rs| - 1] in multiset(rs);
    var d := CountRankWitness(hand, rs[|rs| - 1]);
  }

  /** A rank that is counted in `hand` is the rank of one of its cards. */
  lemma {:induction false} CountRankWitness(hand: seq<Card>, r: Rank) returns (d: Card)
    requires CountRankOf(hand, r) > 0
    ensures d in hand && d.rank == r
  {
    if hand[0].rank == r {
      d := hand[0];
    } else {
      d := CountRankWitness(hand[1..], r);
    }
  }

  lemma {:induction false} CountRankPositive(hand: seq<Card>, c: Card)
    requires c in hand
    ensures CountRankOf(hand, c.rank) > 0
  {
    if hand[0] != c {
      CountRankPositive(hand[1..], c);
    }
  }

  /** A straight has five different ranks, so check_hand_matches finds nothing. */
  lemma StraightHasNoMatches(hand: seq<Card>)
    requires |hand| == 5 && CheckHandStraights(hand) != -1
    ensures CheckHandMatches(hand) == -1
  {
    var rs := SortedRanks(hand);
    forall x ensures CountRankOf(hand, x) <= 1 {
      StrictlyIncreasingCountsAtMostOne(rs, x);
    }
    NoGroupsOfDistinctRanks(hand, 4, 14);
    NoGroupsOfDistinctRanks(hand, 3, 14);
    NoGroupsOfDistinctRanks(hand, 2, 14);
    assert CheckHandMatches(hand) == PairsScore(hand);
  }

  lemma {:induction false} NoGroupsOfDistinctRanks(hand: seq<Card>, target: nat, top: int)
    requires top <= 14 && target >= 2
    requires forall x :: CountRankOf(hand, x) <= 1
    ensures RanksCounted(hand, target, top) == []
    decreases top
  {
    if top >= 2 {
      NoGroupsOfDistinctRanks(hand, target, top - 1);
    }
  }

  /** The score one 5-card hand earns in get_best_hand: its straight score
      when it is a straight, else its match score, else its high-card score. */
  function HandScore(hand: seq<Card>): int
    requires |hand| == 5
  {
    var straight := CheckHandStraights(hand);
    if straight != -1 then straight
    else
      var m := CheckHandMatches(hand);
      if m != -1 then m else CheckHighCard(hand)
  }

  /** Every hand scores in 3..183 or 185..377: never a royal flush (1), a
      straight flush (2), a flush (184) or the no-hand score 378. */
  lemma HandScoreBand(hand: seq<Card>)
    requires |hand| == 5
    ensures 3 <= HandScore(hand) <= 183 || 185 <= HandScore(hand) <= 377
  {
    MatchBand(hand);
    HandScoreCases(hand);
  }

  // ---------------------------------------------------------------------------
  // Enumerating and comparing hands.

  /** `t` can be obtained from `s` by deleting elements. */
  predicate IsSubsequence(t: seq<Card>, s: seq<Card>)
    decreases |s|
  {
    t == [] || (s != [] && ((t[0] == s[0] && IsSubsequence(t[1..], s[1..])) || IsSubsequence(t, s[1..])))
  }

  function PrependAll(c: Card, hands: seq<seq<Card>>): (r: seq<seq<Card>>)
    ensures |r| == |hands|
    ensures forall i :: 0 <= i < |r| ==> r[i] == [c] + hands[i]
  {
    seq(|hands|, i requires 0 <= i < |hands| => [c] + hands[i])
  }

  /** Array#combination(k): every k-element selection of `s`, keeping the
      original order inside each selection; selections containing s[0] first. */
  function Combinations(s: seq<Card>, k: nat): seq<seq<Card>>
    decreases |s|
  {
    if k == 0 then [[]]
    else if s == [] then []
    else PrependAll(s[0], Combinations(s[1..], k - 1)) + Combinations(s[1..], k)
  }

  /** The hands of PrependAll(c, hands) are those of `hands` with `c` in front. */
  lemma PrependAllMember(c: Card, hands: seq<seq<Card>>, t: seq<Card>)
    ensures t in PrependAll(c, hands) <==> t != [] && t[0] == c && t[1..] in hands
  {
    var r := PrependAll(c, hands);
    if t in r {
      var i :| 0 <= i < |r| && r[i] == t;
      assert t[1..] == hands[i];
    }
    if t != [] && t[0] == c && t[1..] in hands {
      var i :| 0 <= i < |hands| && hands[i] == t[1..];
      assert r[i] == t;
    }
  }

  /** Every combination is a k-element subsequence of `s`. */
  lemma {:induction false} CombinationsSound(s: seq<Card>, k: nat, t: seq<Card>)
    requires t in Combinations(s, k)
    ensures |t| == k && IsSubsequence(t, s)
    decreases |s|
  {
    if k > 0 {
      var withFirst := PrependAll(s[0], Combinations(s[1..], k - 1));
      assert Combinations(s, k) == withFirst + Combinations(s[1..], k);
      if t in withFirst {
        PrependAllMember(s[0], Combinations(s[1..], k - 1), t);
        CombinationsSound(s[1..], k - 1, t[1..]);
      } else {
        CombinationsSound(s[1..], k, t);
      }
    }
  }

  /** Every k-element subsequence of `s` is among the combinations. */
  lemma {:induction false} CombinationsComplete(s: seq<Card>, k: nat, t: seq<Card>)
    requires |t| == k && IsSubsequence(t, s)
    ensures t in Combinations(s, k)
    decreases |s|
  {
    if k > 0 {
      var withFirst := PrependAll(s[0], Combinations(s[1..], k - 1));
      assert Combinations(s, k) == withFirst + Combinations(s[1..], k);
      if t[0] == s[0] && IsSubsequence(t[1..], s[1..]) {
        CombinationsComplete(s[1..], k - 1, t[1..]);
        PrependAllMember(s[0], Combinations(s[1..], k - 1), t);
      } else {
        CombinationsComplete(s[1..], k, t);
      }
    }
  }

  /** get_possible_hands: the 5-card combinations of hole plus community cards. */
  function GetPossibleHands(cards: seq<Card>): (hands: seq<seq<Card>>)
    ensures forall h :: h in hands ==> |h| == 5 && IsSubsequence(h, cards)
    ensures forall h :: |h| == 5 && IsSubsequence(h, cards) ==> h in hands
  {
    var hands := Combinations(cards, 5);
    assert forall h :: h in hands <==> |h| == 5 && IsSubsequence(h, cards) by {
      forall h ensures h in hands <==> |h| == 5 && IsSubsequence(h, cards) {
        if h in hands {
          CombinationsSound(cards, 5, h);
        }
        if |h| == 5 && IsSubsequence(h, cards) {
          CombinationsComplete(cards, 5, h);
        }
      }
    }
    hands
  }

  lemma {:induction false} SubsequenceNoLonger(t: seq<Card>, s: seq<Card>)
    requires IsSubsequence(t, s)
    ensures |t| <= |s|
    decreases |s|
  {
    if t != [] {
      if t[0] == s[0] && IsSubsequence(t[1..], s[1..]) {
        SubsequenceNoLonger(t[1..], s[1..]);
      } else {
        SubsequenceNoLonger(t, s[1..]);
      }
    }
  }

  /** With fewer than five cards there is no 5-card hand to score. */
  lemma FewerThanFiveNoHands(cards: seq<Card>)
    requires |cards| < 5
    ensures GetPossibleHands(cards) == []
  {
    var hands := GetPossibleHands(cards);
    if hands != [] {
      SubsequenceNoLonger(hands[0], cards);
    }
  }

  /** Sum of the squared ranks: compare_hands' kicker measure. */
  function SumSquares(hand: seq<Card>): nat
  {
    if hand == [] then 0 else hand[0].rank * hand[0].rank + SumSquares(hand[1..])
  }

  /** A scored hand, as the [score, hand] pairs of get_best_hand. */
  datatype Best = Best(score: int, hand: seq<Card>)

  /** compare_hands: keep the better of the current best and `newHand`
      scored `score`; on equal scores the strictly larger sum of squared
      ranks wins, so the current hand stays on a full tie. */
  function CompareHands(score: int, curr: Best, newHand: seq<Card>): (r: Best)
    ensures r == curr || r == Best(score, newHand)
    ensures r.score == if score < curr.score then score else curr.score
    ensures r == Best(score, newHand) && r != curr <==>
              score < curr.score || (score == curr.score && SumSquares(newHand) > SumSquares(curr.hand))
  {
    if curr.score > score then Best(score, newHand)
    else if curr.score == score && SumSquares(newHand) > SumSquares(curr.hand) then Best(score, newHand)
    else curr
  }

  /** Equal sorted ranks give equal kicker sums. */
  lemma {:induction false} SumSquaresInsert(x: Rank, s: seq<Rank>)
    ensures SumSquaresOf(Insert(x, s)) == x * x + SumSquaresOf(s)
  {
    if s != [] && x > s[0] {
      SumSquaresInsert(x, s[1..]);
    }
  }

  function SumSquaresOf(rs: seq<Rank>): nat
  {
    if rs == [] then 0 else rs[0] * rs[0] + SumSquaresOf(rs[1..])
  }

  lemma {:induction false} SumSquaresBySortedRanks(hand: seq<Card>)
    ensures SumSquares(hand) == SumSquaresOf(SortedRanks(hand))
  {
    if hand != [] {
      SumSquaresBySortedRanks(hand[1..]);
      SumSquaresInsert(hand[0].rank, SortedRanks(hand[1..]));
    }
  }

  /** Two hands that are the same straight have the same kicker sum. */
  lemma SameStraightSameKicker(a: seq<Card>, b: seq<Card>)
    requires |a| == 5 && |b| == 5
    requires CheckHandStraights(a) != -1 && CheckHandStraights(a) == CheckHandStraights(b)
    ensures SumSquares(a) == SumSquares(b)
  {
    SumSquaresBySortedRanks(a);
    SumSquaresBySortedRanks(b);
  }

  /** The lowest HandScore among `hands`, or the no-hand score 378. */
  function MinScore(hands: seq<seq<Card>>): (m: int)
    requires forall h :: h in hands ==> |h| == 5
    ensures hands == [] ==> m == NoHand
    ensures forall h :: h in hands ==> m <= HandScore(h)
    ensures hands != [] ==> exists h :: h in hands && m == HandScore(h)
  {
    if hands == [] then NoHand
    else
      var rest := MinScore(hands[1..]);
      assert forall h :: h in hands[1..] ==> h in hands;
      if hands[1..] == [] || HandScore(hands[0]) <= rest then HandScore(hands[0]) else rest
  }

  /** The score of a player's best hand out of `cards`. */
  function BestScore(cards: seq<Card>): int
  {
    MinScore(GetPossibleHands(cards))
  }

  /** The scores of `hands`, in order. */
  function Scores(hands: seq<seq<Card>>): (r: seq<int>)
    requires forall h :: h in hands ==> |h| == 5
    ensures |r| == |hands|
  {
    if hands == [] then [] else [HandScore(hands[0])] + Scores(hands[1..])
  }

  lemma {:induction false} ScoresAt(hands: seq<seq<Card>>, j: nat)
    requires forall h :: h in hands ==> |h| == 5
    requires j < |hands|
    ensures Scores(hands)[j] == HandScore(hands[j])
  {
    var rest := hands[1..];
    assert Scores(hands) == [HandScore(hands[0])] + Scores(rest);
    if j > 0 {
      assert forall h :: h in rest ==> h in hands;
      ScoresAt(rest, j - 1);
      assert rest[j - 1] == hands[j];
    }
  }

  /** Every 5-card hand scores below the no-hand sentinel. */
  lemma ScoresBelowNoHand(hands: seq<seq<Card>>)
    requires forall h :: h in hands ==> |h| == 5
    ensures forall j :: 0 <= j < |hands| ==> Scores(hands)[j] < NoHand
  {
    forall j | 0 <= j < |hands|
      ensures Scores(hands)[j] < NoHand
    {
      ScoresAt(hands, j);
      assert hands[j] in hands;
      HandScoreBand(hands[j]);
    }
  }

  /** get_best_hand's accumulator after the first `n` of `hands`, whose
      scores are `scores`, starting from the no-hand pair [378, []]. */
  function FoldBest(hands: seq<seq<Card>>, scores: seq<int>, n: nat): Best
    requires n <= |hands| == |scores|
  {
    if n == 0 then Best(NoHand, [])
    else CompareHands(scores[n - 1], FoldBest(hands, scores, n - 1), hands[n - 1])
  }

  /** The accumulator holds one of the hands seen so far with its own score,
      scores no worse than any of them, and among those with its score none
      has a larger sum of squared ranks. */
  lemma {:induction false} FoldBestSpec(hands: seq<seq<Card>>, scores: seq<int>, n: nat)
    requires n <= |hands| == |scores|
    requires forall j :: 0 <= j < |scores| ==> scores[j] < NoHand
    ensures n == 0 ==> FoldBest(hands, scores, n) == Best(NoHand, [])
    ensures n > 0 ==> exists j :: 0 <= j < n && FoldBest(hands, scores, n) == Best(scores[j], hands[j])
    ensures forall j :: 0 <= j < n ==> FoldBest(hands, scores, n).score <= scores[j]
    ensures forall j :: 0 <= j < n && scores[j] == FoldBest(hands, scores, n).score ==>
              SumSquares(hands[j]) <= SumSquares(FoldBest(hands, scores, n).hand)
  {
    if n > 0 {
      FoldBestSpec(hands, scores, n - 1);
      var before := FoldBest(hands, scores, n - 1);
      var r := FoldBest(hands, scores, n);
      assert r == CompareHands(scores[n - 1], before, hands[n - 1]);
      if n - 1 > 0 && r == before {
        var j :| 0 <= j < n - 1 && before == Best(scores[j], hands[j]);
        assert 0 <= j < n && r == Best(scores[j], hands[j]);
      } else {
        assert r == Best(scores[n - 1], hands[n - 1]);
      }
    }
  }

  /** One pass of get_best_hand's loop body: scores `hand` and folds it into
      the best [score, hand] found so far, which is compare_hands on the
      hand's score even though straights are folded in by a separate test. */
  method ScoreHandInto(best: Best, hand: seq<Card>, ghost score: int) returns (next: Best)
    requires |hand| == 5 && score == HandScore(hand)
    requires best == Best(NoHand, []) || (|best.hand| == 5 && best.score == HandScore(best.hand))
    ensures next == CompareHands(score, best, hand)
  {
    next := best;
    // Flushes: CheckHandFlushes never returns one of these three (FlushBranchDead).
    var flush := CheckHandFlushes(hand);
    FlushBranchDead(hand);
    if flush == RoyalFlush {
      next := Best(1, hand);
    } else if flush == StraightFlush {
      next := CompareHands(2, next, hand);
    } else if flush == Flush {
      next := CompareHands(184, next, hand);
    }
    // Straights replace the best hand only when strictly better.
    var straight := CheckHandStraights(hand);
    if !(straight == -1 || next.score <= straight) {
      next := Best(straight, hand);
    }
    // Quads, full houses, trips, pairs; otherwise the high card.
    var matchScore := CheckHandMatches(hand);
    if matchScore != -1 {
      next := CompareHands(matchScore, next, hand);
    } else {
      var highCard := CheckHighCard(hand);
      next := CompareHands(highCard, next, hand);
    }
    HandScoreCases(hand);
    HandScoreBand(hand);
    if straight != -1 && best.score == straight {
      StraightTieKicker(hand, best.hand);
    }
  }

  /** A hand that scores the same as a straight is that same straight, so
      the two have equal kicker sums. */
  lemma StraightTieKicker(a: seq<Card>, b: seq<Card>)
    requires |a| == 5 && |b| == 5
    requires CheckHandStraights(a) != -1 && HandScore(b) == CheckHandStraights(a)
    ensures SumSquares(a) == SumSquares(b)
  {
    HandScoreCases(b);
    MatchBand(b);
    SameStraightSameKicker(a, b);
  }

  /** How HandScore arises from the three scorers; a straight has no match. */
  lemma HandScoreCases(hand: seq<Card>)
    requires |hand| == 5
    ensures CheckHandStraights(hand) != -1 ==>
              CheckHandMatches(hand) == -1 && HandScore(hand) == CheckHandStraights(hand)
    ensures CheckHandStraights(hand) == -1 && CheckHandMatches(hand) != -1 ==>
              HandScore(hand) == CheckHandMatches(hand)
    ensures CheckHandStraights(hand) == -1 && CheckHandMatches(hand) == -1 ==>
              HandScore(hand) == CheckHighCard(hand)
  {
    if CheckHandStraights(hand) != -1 {
      StraightHasNoMatches(hand);
    }
  }

  /** get_best_hand's loop: folds every hand of `hands` into the best
      [score, hand], starting from the no-hand pair [378, []]. */
  method BestOf(hands: seq<seq<Card>>) returns (best: Best)
    requires forall h :: h in hands ==> |h| == 5
    ensures best == FoldBest(hands, Scores(hands), |hands|)
  {
    ghost var scores := Scores(hands);
    best := Best(NoHand, []);
    for i := 0 to |hands|
      invariant best == FoldBest(hands, scores, i)
    {
      FoldBestScored(hands, i);
      ScoresAt(hands, i);
      var hand := hands[i];
      assert hand in hands;
      best := ScoreHandInto(best, hand, scores[i]);
    }
  }

  /** The accumulator is the no-hand pair or a scored 5-card hand. */
  lemma FoldBestScored(hands: seq<seq<Card>>, n: nat)
    requires n <= |hands|
    requires forall h :: h in hands ==> |h| == 5
    ensures FoldBest(hands, Scores(hands), n) == Best(NoHand, []) ||
            (|FoldBest(hands, Scores(hands), n).hand| == 5 &&
             FoldBest(hands, Scores(hands), n).score == HandScore(FoldBest(hands, Scores(hands), n).hand))
  {
    ScoresBelowNoHand(hands);
    FoldBestSpec(hands, Scores(hands), n);
    if n > 0 {
      var j :| 0 <= j < n && FoldBest(hands, Scores(hands), n) == Best(Scores(hands)[j], hands[j]);
      ScoresAt(hands, j);
      assert hands[j] in hands;
    }
  }

  /** The best [score, hand] that get_best_hand finds among the 5-card
      combinations of `cards`. */
  function BestHand(cards: seq<Card>): Best
  {
    var hands := GetPossibleHands(cards);
    FoldBest(hands, Scores(hands), |hands|)
  }

  /** The best hand is one of the combinations, its score is the lowest
      score of any combination, and no combination with that score has a
      larger sum of squared ranks; with fewer than five cards it is the
      no-hand pair. */
  lemma BestHandSpec(cards: seq<Card>)
    ensures GetPossibleHands(cards) == [] ==> BestHand(cards) == Best(NoHand, [])
    ensures BestHand(cards).score == BestScore(cards)
    ensures GetPossibleHands(cards) != [] ==>
              BestHand(cards).hand in GetPossibleHands(cards) &&
              BestHand(cards).score == HandScore(BestHand(cards).hand)
    ensures forall h :: h in GetPossibleHands(cards) && HandScore(h) == BestHand(cards).score ==>
              SumSquares(h) <= SumSquares(BestHand(cards).hand)
  {
    var hands := GetPossibleHands(cards);
    var n := |hands|;
    var scores := Scores(hands);
    ScoresBelowNoHand(hands);
    FoldBestSpec(hands, scores, n);
    var b := BestHand(cards);
    forall h | h in hands
      ensures b.score <= HandScore(h)
      ensures HandScore(h) == b.score ==> SumSquares(h) <= SumSquares(b.hand)
    {
      var j :| 0 <= j < n && hands[j] == h;
      ScoresAt(hands, j);
    }
    if n > 0 {
      var j :| 0 <= j < n && b == Best(scores[j], hands[j]);
      ScoresAt(hands, j);
      assert hands[j] in hands;
      var m := MinScore(hands);
      var k :| k in hands && m == HandScore(k);
      assert b.score <= m;
    }
  }

  /** get_best_hand: the best [score, hand] among the 5-card combinations
      of `cards` (hole cards followed by community cards). */
  method GetBestHand(cards: seq<Card>) returns (best: Best)
    ensures best == BestHand(cards)
  {
    best := BestOf(GetPossibleHands(cards));
  }
}
