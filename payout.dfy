// Who is paid at a showdown, and how much.
//
// The unfolded players' best hands are grouped by score; a unique lowest
// score takes the pot.  A shared lowest score goes to the tie breaker: some
// categories always split, the others go to the largest sum of rank^rank
// over the five cards, splitting among those who share it.  A split pays
// every tied player the pot divided by their number, rounded up to the
// next whole chip even when the division is exact.
module Payout {
  import opened Cards
  import opened HandEval

  /** One unfolded player's standing: seat id, best score and best hand. */
  datatype Entry = Entry(id: nat, score: int, hand: seq<Card>)

  /** A single winner, players sharing the pot, or nobody paid (the error branch). */
  datatype Outcome = Winner(id: nat) | Split(ids: seq<nat>) | NoPayout

  function Pow(b: nat, e: nat): nat
  {
    if e == 0 then 1 else b * Pow(b, e - 1)
  }

  /** tie_breaker's kicker measure: the sum of rank^rank over the hand. */
  function KickerScore(hand: seq<Card>): nat
  {
    if hand == [] then 0 else Pow(hand[0].rank, hand[0].rank) + KickerScore(hand[1..])
  }

  /** The lowest score among the entries. */
  function LowestScore(es: seq<Entry>): (m: int)
    requires es != []
    ensures forall i :: 0 <= i < |es| ==> m <= es[i].score
    ensures exists i :: 0 <= i < |es| && es[i].score == m
  {
    if |es| == 1 then es[0].score
    else
      var rest := LowestScore(es[1..]);
      if es[0].score <= rest then es[0].score else rest
  }

  /** The entries with score `s`, in seat order. */
  function WithScore(es: seq<Entry>, s: int): (r: seq<Entry>)
    ensures forall e :: e in r <==> e in es && e.score == s
    ensures |r| <= |es|
  {
    if es == [] then []
    else (if es[0].score == s then [es[0]] else []) + WithScore(es[1..], s)
  }

  /** Ties in these categories are never broken: royal and straight flushes, full houses, straights. */
  predicate SplitCategory(score: int)
  {
    score == 1 || score == 2 || 16 <= score <= 183 || 185 <= score <= 194
  }

  /** Ties in these categories go to the kicker measure: quads, flushes, trips, pairs, high cards. */
  predicate KickerCategory(score: int)
  {
    3 <= score <= 15 || score == 184 || 195 <= score <= 377
  }

  function Ids(es: seq<Entry>): (r: seq<nat>)
    ensures |r| == |es|
    ensures forall i :: 0 <= i < |es| ==> r[i] == es[i].id
  {
    if es == [] then [] else [es[0].id] + Ids(es[1..])
  }

  function Kickers(es: seq<Entry>): (r: seq<nat>)
    ensures |r| == |es|
    ensures forall i :: 0 <= i < |es| ==> r[i] == KickerScore(es[i].hand)
  {
    if es == [] then [] else [KickerScore(es[0].hand)] + Kickers(es[1..])
  }

  /** The largest value of a non-empty sequence. */
  function MaxOf(ks: seq<nat>): (m: nat)
    requires ks != []
    ensures m in ks
    ensures forall i :: 0 <= i < |ks| ==> ks[i] <= m
  {
    if |ks| == 1 then ks[0]
    else
      var rest := MaxOf(ks[1..]);
      if ks[0] >= rest then ks[0] else rest
  }

  /** The first position holding `m`. */
  function IndexOf(ks: seq<nat>, m: nat): (i: nat)
    requires m in ks
    ensures i < |ks| && ks[i] == m
    ensures forall j :: 0 <= j < i ==> ks[j] != m
  {
    if ks[0] == m then 0 else 1 + IndexOf(ks[1..], m)
  }

  /** The ids of the entries whose kicker measure is `m`, in seat order. */
  function IdsWithKicker(es: seq<Entry>, m: nat): (r: seq<nat>)
    ensures |r| == multiset(Kickers(es))[m]
    ensures forall id :: id in r <==> exists e :: e in es && e.id == id && KickerScore(e.hand) == m
  {
    if es == [] then []
    else
      var rest := IdsWithKicker(es[1..], m);
      assert Kickers(es) == [KickerScore(es[0].hand)] + Kickers(es[1..]);
      assert forall e :: e in es <==> e == es[0] || e in es[1..];
      (if KickerScore(es[0].hand) == m then [es[0].id] else []) + rest
  }

  /**
   * tie_breaker on the tied entries sharing `score`: a split in the
   * never-broken categories; in the kicker categories the unique largest
   * kicker measure wins, otherwise those sharing it split; any other score
   * pays nobody.
   */
  function TieBreaker(score: int, tied: seq<Entry>): Outcome
    requires tied != []
  {
    if SplitCategory(score) then Split(Ids(tied))
    else if KickerCategory(score) then
      var ks := Kickers(tied);
      var m := MaxOf(ks);
      if multiset(ks)[m] == 1 then Winner(tied[IndexOf(ks, m)].id)
      else Split(IdsWithKicker(tied, m))
    else NoPayout
  }

  /** handle_showdown's decision on the unfolded players' entries, in seat order. */
  function ShowdownOutcome(es: seq<Entry>): (o: Outcome)
    requires es != []
    ensures o.Split? ==> o.ids != []
  {
    var best := LowestScore(es);
    var group := WithScore(es, best);
    assert group != [] by {
      var i :| 0 <= i < |es| && es[i].score == best;
      assert es[i] in group;
    }
    if |group| == 1 then Winner(group[0].id)
    else
      var o := TieBreaker(best, group);
      assert o.Split? ==> o.ids != [] by {
        if o.Split? && !SplitCategory(best) {
          var ks := Kickers(group);
          var m := MaxOf(ks);
          assert m in multiset(ks);
        }
      }
      o
  }

  /** split_pot's share: the pot rounded up to a multiple of `n`, divided by `n`. */
  function SplitAmount(pot: int, n: nat): int
    requires n > 0
  {
    (pot + n - pot % n) / n
  }

  /** The chips paid to seat `id` for outcome `o` of a pot. */
  function Winnings(o: Outcome, pot: int, id: nat): int
    requires o.Split? ==> o.ids != []
  {
    match o
    case Winner(w) => if id == w then pot else 0
    case Split(ids) => if id in ids then SplitAmount(pot, |ids|) else 0
    case NoPayout => 0
  }

  // ---------------------------------------------------------------------
  // Properties
  // ---------------------------------------------------------------------

  /**
   * The share is always one chip more than the pot divided by the number of
   * tied players, even when the pot divides evenly, so a split pays out more
   * than the pot: between one and `n` extra chips in total.
   */
  lemma SplitAmountOverpays(pot: int, n: nat)
    requires n > 0 && pot >= 0
    ensures SplitAmount(pot, n) == pot / n + 1
    ensures pot < n * SplitAmount(pot, n) <= pot + n
  {
    var q, r := pot / n, pot % n;
    assert pot == n * q + r;
    assert pot + n - r == n * (q + 1);
    DivExact(n, q + 1);
  }

  /** Dividing an exact multiple of `n` by `n`. */
  lemma DivExact(n: nat, k: int)
    requires n > 0
    ensures (n * k) / n == k
  {
    var x := n * k;
    var d, r := x / n, x % n;
    assert n * (k - d) == r;
    if k - d > 0 {
      MulAtLeast(n, k - d);
    } else if k - d < 0 {
      MulAtMost(n, k - d);
    }
  }

  lemma MulAtLeast(n: nat, c: int)
    requires c >= 1
    ensures n * c >= n
  {
  }

  lemma MulAtMost(n: nat, c: int)
    requires c <= -1
    ensures n * c + n <= 0
  {
  }

  /** A player whose score is strictly the lowest takes the whole pot. */
  lemma UniqueBestTakesPot(es: seq<Entry>, k: nat, pot: int)
    requires k < |es|
    requires forall j :: 0 <= j < |es| && j != k ==> es[k].score < es[j].score
    ensures ShowdownOutcome(es) == Winner(es[k].id)
    ensures forall id :: Winnings(ShowdownOutcome(es), pot, id) == (if id == es[k].id then pot else 0)
  {
    var best := LowestScore(es);
    var i :| 0 <= i < |es| && es[i].score == best;
    assert i == k;
    WithScoreSingle(es, k);
  }

  /** An entry whose score nobody else has is alone in its group. */
  lemma {:induction false} WithScoreSingle(es: seq<Entry>, k: nat)
    requires k < |es|
    requires forall j :: 0 <= j < |es| && j != k ==> es[j].score != es[k].score
    ensures WithScore(es, es[k].score) == [es[k]]
  {
    var s := es[k].score;
    if k == 0 {
      forall e | e in es[1..]
        ensures e.score != s
      {
        var j :| 0 <= j < |es[1..]| && es[1..][j] == e;
        assert es[j + 1] == e;
      }
      WithScoreNone(es[1..], s);
    } else {
      forall j | 0 <= j < |es[1..]| && j != k - 1
        ensures es[1..][j].score != es[1..][k - 1].score
      {
        assert es[1..][j] == es[j + 1];
      }
      WithScoreSingle(es[1..], k - 1);
    }
  }

  /** No entry has score `s`, so none is selected. */
  lemma {:induction false} WithScoreNone(es: seq<Entry>, s: int)
    requires forall e :: e in es ==> e.score != s
    ensures WithScore(es, s) == []
  {
    if es != [] {
      assert forall e :: e in es[1..] ==> e in es;
      WithScoreNone(es[1..], s);
    }
  }

  /** Whoever a showdown outcome pays holds one of the entries with the lowest score. */
  lemma OutcomePaysEntrants(es: seq<Entry>)
    requires es != []
    ensures ShowdownOutcome(es).Winner? ==>
              exists e :: e in es && e.id == ShowdownOutcome(es).id && e.score == LowestScore(es)
    ensures ShowdownOutcome(es).Split? ==>
              forall id :: id in ShowdownOutcome(es).ids ==>
                exists e :: e in es && e.id == id && e.score == LowestScore(es)
  {
    var best := LowestScore(es);
    var group := WithScore(es, best);
    var o := ShowdownOutcome(es);
    if |group| == 1 {
      assert group[0] in group;
    } else if SplitCategory(best) {
      forall id | id in o.ids
        ensures exists e :: e in es && e.id == id && e.score == best
      {
        var i :| 0 <= i < |group| && Ids(group)[i] == id;
        assert group[i] in group;
      }
    } else if KickerCategory(best) {
      var ks := Kickers(group);
      var m := MaxOf(ks);
      if multiset(ks)[m] == 1 {
        assert group[IndexOf(ks, m)] in group;
      }
    }
  }

  /** Ties on royal or straight flushes, full houses and straights always split among all tied players. */
  lemma SplitCategoryTiesSplit(score: int, tied: seq<Entry>)
    requires tied != [] && SplitCategory(score)
    ensures TieBreaker(score, tied) == Split(Ids(tied))
    ensures forall i :: 0 <= i < |tied| ==> tied[i].id in TieBreaker(score, tied).ids
  {
  }

  /**
   * In the kicker categories the tie goes to the one entry whose sum of
   * rank^rank is strictly the largest; if several share the largest sum,
   * exactly they split the pot.
   */
  lemma KickerTieOutcome(score: int, tied: seq<Entry>)
    requires tied != [] && KickerCategory(score)
    ensures TieBreaker(score, tied).Winner? ==>
      exists i :: 0 <= i < |tied| && TieBreaker(score, tied).id == tied[i].id &&
        forall j :: 0 <= j < |tied| && j != i ==> KickerScore(tied[j].hand) < KickerScore(tied[i].hand)
    ensures TieBreaker(score, tied).Split? ==> |TieBreaker(score, tied).ids| >= 2
    ensures TieBreaker(score, tied).Split? ==>
      forall id :: id in TieBreaker(score, tied).ids <==>
        exists e :: e in tied && e.id == id && forall f :: f in tied ==> KickerScore(f.hand) <= KickerScore(e.hand)
  {
    var ks := Kickers(tied);
    var m := MaxOf(ks);
    assert !SplitCategory(score);
    if multiset(ks)[m] == 1 {
      var i := IndexOf(ks, m);
      forall j | 0 <= j < |tied| && j != i
        ensures ks[j] < ks[i]
      {
        if ks[j] == m {
          OtherOccurrence(ks, i, j);
        }
      }
    } else {
      MaxKickerIds(tied);
    }
  }

  /** The ids sharing the largest kicker measure are those of the entries no other entry beats. */
  lemma MaxKickerIds(tied: seq<Entry>)
    requires tied != []
    ensures forall id :: id in IdsWithKicker(tied, MaxOf(Kickers(tied))) <==>
      exists e :: e in tied && e.id == id && forall f :: f in tied ==> KickerScore(f.hand) <= KickerScore(e.hand)
  {
    var ks := Kickers(tied);
    var m := MaxOf(ks);
    assert forall f :: f in tied ==> KickerScore(f.hand) <= m by {
      forall f | f in tied
        ensures KickerScore(f.hand) <= m
      {
        var j :| 0 <= j < |tied| && tied[j] == f;
        assert ks[j] == KickerScore(f.hand);
      }
    }
    var at :| 0 <= at < |ks| && ks[at] == m;
    assert tied[at] in tied && KickerScore(tied[at].hand) == m;
  }

  /** A value occurring once in a sequence occurs at no second position. */
  lemma {:induction false} OtherOccurrence(ks: seq<nat>, i: nat, j: nat)
    requires i < |ks| && j < |ks| && i != j && ks[i] == ks[j]
    ensures multiset(ks)[ks[i]] >= 2
  {
    var lo, hi := if i < j then i else j, if i < j then j else i;
    assert ks == ks[..lo] + [ks[lo]] + ks[lo + 1..hi] + [ks[hi]] + ks[hi + 1..];
    assert multiset(ks) == multiset(ks[..lo]) + multiset{ks[lo]} + multiset(ks[lo + 1..hi]) + multiset{ks[hi]} + multiset(ks[hi + 1..]);
  }

  /** The tie breaker pays somebody exactly for the scores 1..377; any other score reaches its error branch. */
  lemma TieBreakerPaysExactly(score: int, tied: seq<Entry>)
    requires tied != []
    ensures TieBreaker(score, tied) == NoPayout <==> !(1 <= score <= 377)
  {
  }

  /**
   * compare_hands and tie_breaker rank kickers differently: a pair of twos
   * with king, queen, jack has the larger sum of squares, but a pair of
   * twos with ace, four, three has the larger sum of rank^rank.
   */
  lemma KickerMeasuresDisagree()
    ensures var a := [Card(2, H), Card(2, C), Card(13, S), Card(12, D), Card(11, H)];
      var b := [Card(2, S), Card(2, D), Card(14, H), Card(4, C), Card(3, S)];
      SumSquares(a) > SumSquares(b) && KickerScore(a) < KickerScore(b)
  {
    var a := [Card(2, H), Card(2, C), Card(13, S), Card(12, D), Card(11, H)];
    var b := [Card(2, S), Card(2, D), Card(14, H), Card(4, C), Card(3, S)];
    assert SumSquares(a) == 442;
    assert SumSquares(b) == 229;
    assert Pow(13, 13) == 302875106592253;
    assert Pow(12, 12) == 8916100448256;
    assert Pow(11, 11) == 285311670611;
    assert Pow(14, 14) == 11112006825558016;
    assert KickerScore(a) == 8 + 302875106592253 + 8916100448256 + 285311670611;
    assert KickerScore(b) == 8 + 11112006825558016 + 256 + 27;
  }
}
