# ruby-poker in Dafny

A model of the core of ruby-poker, a six-seat Texas Hold'em engine for the
console with one human player and five computer opponents. The model has
five modules:

- `Cards` (cards.dfy) covers `Card` and `Deck`. It has the 52-card deck
  built rank by rank, `draw_cards` taking cards off the end of the deck,
  and the shuffle.
- `HandEval` (hand_eval.dfy) is the hand scorer of `Table`. Every five-card
  combination of hole and community cards gets an integer score, and lower
  is better:
  - 3..15 quads;
  - 16..183 full house;
  - 185..194 straight;
  - 195..207 trips;
  - 208..351 two pair;
  - 352..364 pair;
  - 365..377 high card;
  - 378 stands for "no hand".

  `get_best_hand` keeps the best of them, breaking equal scores by the sum
  of the squared ranks. The flush test compares an Array with an Integer,
  so it never fires. The model keeps that, and the scores 1, 2 and 184 are
  never produced.
- `Players` (players.dfy) has the `Player` object: hole cards, folded flag,
  chips and shown bet. It also has the computer opponents' policy, the
  starting-hand tiers and the action tables of `determine_action`.
- `Payout` (payout.dfy) decides a showdown:
  - the lowest score wins;
  - ties of full houses, straights and straight flushes are split;
  - other ties go to the highest sum of rank^rank, or are split among
    those sharing it.

  The split gives every tied player `(pot + n - pot mod n) / n`, which is
  `pot / n + 1` and pays out more than the pot.
- `Tables` (table.dfy) is the `Table` object:
  - the betting ledger (`add_player_bet`, with the all-in cap and the
    overwritten `bet`);
  - the seat rotation;
  - the round state machine;
  - dealing per round;
  - the preflop setup with dealer coin and blinds;
  - early win and showdown payout;
  - the reset between hands;
  - `game_loop` itself, with the players' decisions supplied as an input
    function from the turn number to an action.

  The rounds are also written as functions on values: a `HandState` holds
  the round, the community cards, the deck and a `Betting` state (seats,
  pot, bet to match, active seat, decisions taken, early win). The methods
  of `Table` are proved to leave the table holding exactly the value these
  functions compute, and the lemmas about the functions carry over.

  A betting round runs from the active seat until the turn comes round to
  the seat left of the dealer. The first round therefore starts under the
  gun and ends at the dealer, so the blinds do not act again preflop. Later
  rounds go one full circle. After each turn, a hand with exactly one
  unfolded player ends at once.

## Model

| member | source | states |
|---|---|---|
| Cards.StandardDeck | deck.rb:37-42 | the new deck has 52 cards; card i has rank 2 + i div 4 and the (i mod 4)-th suit of H, C, S, D |
| Cards.StandardDeckComplete | deck.rb:37-42 | the 52 cards are pairwise distinct, every card occurs, each suit occurs 13 times and each rank 4 times |
| Cards.Pop | deck.rb:45-47 | the cards left followed by the cards drawn are the deck before; min(n, size) cards are drawn, and all of them when n is at least the size |
| Cards.Deck.constructor | deck.rb:37-42 | a new deck holds the standard 52 cards |
| Cards.Deck.DrawCards | deck.rb:45-47 | the drawn cards are the last `amount` cards in order, and the deck keeps the rest |
| Cards.Deck.Shuffle | deck.rb:50-52 | the shuffled deck is a permutation of the deck before: same size, same multiset |
| HandEval.QuadsScore | table.rb:283 | quads score in 3..15 |
| HandEval.FullHouseScore | table.rb:293-295 | a full house with distinct trip and pair ranks scores in 16..183 |
| HandEval.TripsScore | table.rb:291 | trips score in 195..207 |
| HandEval.TwoPairScore | table.rb:302-305 | two pair with a higher first pair scores in 208..351 |
| HandEval.PairScore | table.rb:306 | one pair scores in 352..364 |
| HandEval.HighCardScore | table.rb:315 | high card scores in 365..377 |
| HandEval.SingleRankBandsMonotone | table.rb:283-315 | in the quads, trips, pair and high-card bands a higher rank gives a strictly lower score |
| HandEval.FullHouseLexicographic | table.rb:293-295 | full-house scores are strictly lower for a higher (trip, pair) in lexicographic order, and injective |
| HandEval.TwoPairLexicographic | table.rb:302-305 | two-pair scores are strictly lower for a higher (high pair, low pair) in lexicographic order, and injective |
| HandEval.SortedRanks | table.rb:257-259 | the ranks of a hand in ascending order: sorted, and each rank as often as in the hand |
| HandEval.GetRankGroupedHandExact | table.rb:411-419 | exactly the ranks occurring `target` times, in descending order |
| HandEval.AtMostTwoPairs | table.rb:299-309 | a five-card hand has at most two pairs, listed higher first, so the error branch of the pair count is never taken |
| HandEval.FlushBranchDead | table.rb:242-252 | the flush test never yields a flush category |
| HandEval.CheckHandStraights | table.rb:255-275 | the result is -1 or a value in 185..194 whose straight is exactly the sorted ranks of the hand |
| HandEval.StraightValueSpec | table.rb:262-274 | a straight value in 185..194 is returned only for its own rank sequence |
| HandEval.StraightRecognised | table.rb:262-274 | each of the ten straights, the wheel included, is recognised with its value |
| HandEval.TripsOrFullHouseBand | table.rb:284-296 | with trips found, the result is a full house in 16..183 exactly when some other rank appears twice, and trips in 195..207 otherwise |
| HandEval.TripsOrFullHouseByGroups | table.rb:288-296 | with a rank appearing three times, the pair check on the other cards finds exactly the pairs of the whole hand, so the result is TripsScore without a pair and FullHouseScore with the first pair otherwise |
| HandEval.GroupSizes | table.rb:280-310 | quads, trips and pairs of a five-card hand share its five cards: 4 per quad rank, 3 per trip rank and 2 per pair rank add up to at most 5 |
| HandEval.MatchBand | table.rb:280-310 | the match score is -1 or in a match band; it is a quads score exactly when a rank occurs four times, and -1 exactly when no rank repeats |
| HandEval.FullHouseBand | table.rb:280-310 | a five-card hand's match score is in 16..183 exactly when one rank appears three times and another twice, and it is then FullHouseScore of those two ranks |
| HandEval.TripsBand | table.rb:280-310 | the match score is in 195..207 exactly when one rank appears three times and no rank twice, and it is then TripsScore of that rank |
| HandEval.TwoPairBand | table.rb:280-310 | the match score is in 208..351 exactly when two ranks appear twice each, and it is then TwoPairScore of the higher and the lower |
| HandEval.OnePairBand | table.rb:280-310 | the match score is in 352..364 exactly when one rank appears twice and every other rank at most once, and it is then PairScore of that rank |
| HandEval.CheckHighCard | table.rb:314-316 | the high-card score is in 365..377 |
| HandEval.HighCardIsMaximum | table.rb:314-316 | the high-card score is at most the score of every card's rank and equals the score of some card's rank: it comes from the highest rank of the hand |
| HandEval.StraightHasNoMatches | table.rb:213-221 | a straight has no repeated rank, so the match scorer gives -1 for it |
| HandEval.HandScoreCases | table.rb:206-221 | a hand scores as a straight if it is one, else by its matches if any, else by its high card |
| HandEval.HandScoreBand | table.rb:206-221 | every five-card hand scores in 3..183 or 185..377, never 1, 2 or 184 |
| HandEval.GetPossibleHands | table.rb:405-407 | exactly the five-card subsequences of the hole and community cards |
| HandEval.CombinationsSound | table.rb:406 | every combination has k cards taken in order from the input |
| HandEval.CombinationsComplete | table.rb:406 | every in-order choice of k cards is among the combinations |
| HandEval.FewerThanFiveNoHands | table.rb:405-407 | with fewer than five cards there are no hands |
| HandEval.CompareHands | table.rb:230-239 | the new hand replaces the current one exactly when its score is lower, or equal with a strictly larger sum of squared ranks |
| HandEval.SameStraightSameKicker | table.rb:235 | equal straights have equal sums of squared ranks |
| HandEval.StraightTieKicker | table.rb:235 | a hand scoring the same as a straight has the same sum of squared ranks |
| HandEval.MinScore | table.rb:202-224 | the lowest score over the hands, attained by one of them, and 378 without hands |
| HandEval.ScoresBelowNoHand | table.rb:203 | every five-card score is below the 378 sentinel |
| HandEval.FoldBestSpec | table.rb:202-224 | the running best has the lowest score so far, comes from one of the hands, and has the largest squared-rank sum among the hands with that score |
| HandEval.ScoreHandInto | table.rb:206-221 | one iteration of the best-hand loop is compare_hands with the hand's score |
| HandEval.BestOf | table.rb:205-222 | the loop over the hands computes the fold of compare_hands over them |
| HandEval.BestHandSpec | table.rb:202-224 | the best hand is one of the possible hands with the lowest score and the largest squared-rank sum for that score, or the sentinel when there are none |
| HandEval.GetBestHand | table.rb:202-224 | the method returns the best hand of the hole and community cards |
| Players.Player.constructor | players.rb:5-12 | a new player has 50 chips, no cards, bet 0 and is not folded |
| Players.Player.FoldHand | players.rb:15-20 | folding sets the flag and the "---" marker and leaves chips and cards |
| Players.Player.ResetSelf | players.rb:43-47 | cards, folded flag and bet are cleared; chips are kept |
| Players.SortByRank | players.rb:111 | the two cards in ascending rank order, a reordering of the input |
| Players.RankStartingHand | players.rb:110-153 | the tier is -1 or in 1..21 |
| Players.RankStartingHandSymmetric | players.rb:110-153 | the tier does not depend on the order of the two hole cards |
| Players.PocketPairs | players.rb:123-149 | pocket pairs: A 1, K 2, Q 3, J 4, 10 6, 9 9, 8 14, lower pairs 21 |
| Players.UnplayableExactly | players.rb:120-152 | tier -1 exactly for unsuited, unpaired, unconnected hands other than A-J, K-Q, A-Q, A-K offsuit |
| Players.LowHandsFallThrough | players.rb:152 | hands of two cards below eight get 21 if suited, paired or connected, and -1 otherwise |
| Players.CheckOrCall | players.rb:92 | check exactly when nothing is to be matched, call otherwise |
| Players.DetermineAction | players.rb:83-107 | an action is taken preflop always and postflop for scores 1..378; it is a fold exactly for tier -1 preflop and for scores 365..378 postflop |
| Players.PreflopMonotone | players.rb:84-94 | a better starting tier never gives a weaker preflop action |
| Players.PostflopMonotone | players.rb:95-105 | a better postflop score never gives a weaker action, given a stack of at least 8 |
| Payout.LowestScore | table.rb:113 | the minimum showdown score, attained by an entry |
| Payout.WithScore | table.rb:105-111 | exactly the entries holding the given score |
| Payout.Ids | table.rb:143 | the tied players' ids, in order |
| Payout.Kickers | table.rb:150 | the sums of rank^rank of the tied hands, in order |
| Payout.MaxOf | table.rb:151 | the maximum kicker score, one of the kicker scores |
| Payout.IndexOf | table.rb:153 | the first index holding the maximum kicker score |
| Payout.IdsWithKicker | table.rb:155 | exactly the ids whose kicker score is the given one, as many as there are such scores |
| Payout.ShowdownOutcome | table.rb:113-120 | a split the showdown decides names at least one player |
| Payout.SplitAmountOverpays | table.rb:166 | the share is pot div n + 1, so n shares exceed the pot by 1..n chips |
| Payout.UniqueBestTakesPot | table.rb:113-126 | a unique lowest score makes its player the winner of the whole pot, and nobody else gets anything |
| Payout.OutcomePaysEntrants | table.rb:113-120 | a winner or split player named by the showdown is an entrant holding the lowest score |
| Payout.SplitCategoryTiesSplit | table.rb:147-148 | ties on straight flushes, full houses and straights split the pot among all tied players |
| Payout.KickerTieOutcome | table.rb:149-157 | other ties go to the unique highest sum of rank^rank, or are split among at least two players sharing the highest sum |
| Payout.MaxKickerIds | table.rb:151-155 | the kept ids are exactly those of the tied players with the highest kicker score |
| Payout.TieBreakerPaysExactly | table.rb:146-159 | the tie breaker pays nobody exactly for scores outside 1..377 |
| Payout.KickerMeasuresDisagree | table.rb:150 | the squared-rank sum of compare_hands (table.rb:235) and the rank^rank sum of tie_breaker can prefer different hands |
| Tables.RoundIndex | table.rb:6 | the position of a round in preflop, flop, turn, river, showdown |
| Tables.NextRoundOf | table.rb:90 | the next round is one step further along the list |
| Tables.NextSeat | table.rb:193-196 | the seat to the left is a seat |
| Tables.SeatAfterIsModular | table.rb:193-196 | k steps to the left from seat s reach seat (s + k) mod 6 |
| Tables.FullCircle | table.rb:193-196 | six steps return to the starting seat, and fewer than six never do |
| Tables.StepTowards | table.rb:40-43 | stepping left from a seat before the closing seat reaches it exactly after the counted distance |
| Tables.Committed | table.rb:185 | the committed chips are the request capped at the player's stack |
| Tables.AfterBet | table.rb:183-190 | after a bet the stack shrinks by the shown bet; a request of the whole stack or more leaves 0 |
| Tables.Acted | players.rb:15-40 | an action keeps the cards, takes its contribution from the stack, and folds exactly on Fold |
| Tables.HolesFromDeck | table.rb:360 | player i's hole cards are the two cards just above what is left of the deck after that player draws |
| Tables.StreetDealSizes | table.rb:361-366 | a street removes k + 1 cards; the deck left, the cards shown and the burn card make up the deck before |
| Tables.CountUnfolded | table.rb:36 | the number of unfolded players is at most the number of players, and 0 exactly when every player has folded |
| Tables.ChangeOneSeat | table.rb:183-190 | changing one seat changes the chip total and the unfolded count by that seat's own difference |
| Tables.SoleUnfolded | table.rb:133-134 | with one unfolded player, the first unfolded player found is that player |
| Tables.FirstUnfolded | table.rb:134 | the first unfolded player: unfolded, and everybody before has folded |
| Tables.BestHandsAt | table.rb:100 | each player's best hand is computed from their hole cards and the community cards |
| Tables.ShowdownEntries | table.rb:99-111 | the standings are exactly the unfolded players, each with their best score and hand |
| Tables.UnfoldedCounts | table.rb:36 | an unfolded player is counted, so the count is at least one |
| Tables.SomeUnfolded | table.rb:134 | a positive count of unfolded players has an unfolded player behind it |
| Tables.OffsetStep | table.rb:193-196 | moving one seat left brings every other seat one place nearer |
| Tables.SeatAfterNext | table.rb:193-196 | k moves from the next seat are k + 1 moves from the seat |
| Tables.DistanceReaches | table.rb:193-196 | the counted distance of moves to the left takes a seat to the closing seat |
| Tables.TurnConserves | table.rb:30-35 | a turn moves chips only from the active player into the pot, takes at most one decision and keeps the turn where it is |
| Tables.TurnFoldsOne | table.rb:30-35 | a turn folds at most one player |
| Tables.TurnEvolves | table.rb:30-35 | a turn changes no seat but the active one, keeps hole cards and leaves a folded player as they were |
| Tables.RoundConserves | table.rb:29-43 | a betting round creates and loses no chip and takes at most one decision a turn |
| Tables.RoundEvolves | table.rb:29-43 | a betting round keeps every player's hole cards and leaves folded players as they were |
| Tables.RoundReaches | table.rb:29-43 | a betting round leaves the seats it does not reach untouched |
| Tables.RoundEnds | table.rb:36-39 | a round that starts with two or more players ends won early exactly when one player is left, and otherwise with two or more |
| Tables.RoundGoesRound | table.rb:40-42 | a round not won early ends with the turn the counted number of seats round |
| Tables.AfterNextRound | table.rb:89-93 | next_round on a hand moves one round on |
| Tables.DealtKeeps | table.rb:357-368 | dealing moves no chip and folds nobody: the chip total, the pot, the folded flags and the number of players still in all stay the same |
| Tables.NextRoundKeeps | table.rb:89-93 | next_round moves no chip and folds nobody |
| Tables.RoundsEnd | table.rb:25-46 | the rounds of a hand that starts with two or more players conserve chips plus pot, never unfold a player, and end won early with one player left or at showdown with two or more |
| Tables.Table.constructor | table.rb:5-16 | a new table is preflop with no cards shown, a full deck, no dealer, an empty pot and the minimum bet to match |
| Tables.Table.AddPlayerBet | table.rb:183-190 | the committed amount moves from the stack to the pot and becomes the shown bet; the bet to match rises to it if larger; chips plus pot is conserved |
| Tables.Table.CallBet | players.rb:29-34 | calling bets the current bet to match, capped at the stack |
| Tables.Table.RaiseBet | players.rb:37-40 | raising bets the current bet plus the raise, capped at the stack |
| Tables.Table.ApplyAction | players.rb:15-40 | the acting player's state becomes the result of the action; the pot grows by its contribution; other players are unchanged |
| Tables.Table.NextRound | table.rb:89-93 | one step along the rounds, nothing to match, every unfolded player's bet set to 0 and folded players untouched |
| Tables.Table.DealCards | table.rb:357-368 | the table's hand afterwards is the dealt hand of the one before: preflop two hole cards each from the end of the deck; flop burn and three; turn and river burn and one; nothing at showdown |
| Tables.Table.DealHoleCards | table.rb:358-360 | each player in seat order draws two cards off the deck |
| Tables.Table.DealHole | table.rb:360 | one player draws the last two cards of the deck into their hole cards; nobody else changes |
| Tables.Table.DealStreet | table.rb:361-366 | a card is burnt and k cards are added to the community cards |
| Tables.Table.ResetTable | table.rb:371-378 | preflop, no community cards, a full deck, empty pot, the minimum bet to match, and every player reset with their chips kept |
| Tables.Table.SetupPreflop | table.rb:55-69 | the deck is permuted; the dealer coin goes to the given first seat (a random seat here, seat 0 at poker.rb:114) or moves one seat left; the next two seats post half the bet and the bet; the seat after them acts first |
| Tables.Table.HandleEarlyWin | table.rb:133-139 | the first unfolded player receives the whole pot, nobody else changes, and the pot is emptied |
| Tables.Table.SplitPot | table.rb:163-177 | every tied player receives the split share and nobody else changes |
| Tables.Table.Standings | table.rb:99-111 | the standings of the unfolded players with their best hands |
| Tables.Table.PayOutcome | table.rb:115-126 | every player is credited with their winnings under the outcome, and the pot is emptied |
| Tables.Table.DecideShowdown | table.rb:99-120 | the outcome of the standings; a named winner is unfolded; nothing changes |
| Tables.Table.HandleShowdown | table.rb:96-127 | each player is credited with their winnings under the showdown outcome of the unfolded players' best hands, and the pot is emptied |
| Tables.Table.TakeTurn | table.rb:30-35 | a folded player is skipped; otherwise the player acts on decision number `next`, what they put in goes to the pot, only a raise can lift the bet to match, and the decision counter advances; chips plus pot is conserved |
| Tables.Table.StillIn | table.rb:36 | the number of unfolded players |
| Tables.Table.PlayTurn | table.rb:29-35 | the table afterwards holds the betting state of the active seat's turn taken on the state before |
| Tables.Table.RoundStep | table.rb:29-43 | the table afterwards holds the state after one pass of the betting loop: the turn, then an early win when one player is left, otherwise the next seat |
| Tables.Table.BettingRound | table.rb:29-43 | the table afterwards holds the betting round played from the state before; it ends with an early win exactly when one player is left, otherwise at the seat left of the dealer; chips plus pot is conserved; folded players and unreached seats are unchanged |
| Tables.Table.TurnsToLeft | table.rb:29-43 | the betting loop leaves the table holding the betting round played from the state before |
| Tables.Table.PlayRound | table.rb:26-43 | the table afterwards holds the round's cards dealt and then its betting round played; an early win is reported exactly when one player is left, otherwise the turn stops left of the dealer with at least two players in; chips plus pot is conserved |
| Tables.Table.AdvanceRound | table.rb:89-93 | the table afterwards holds the next round with nothing to match and every unfolded player's bet back to 0; nobody folds |
| Tables.Table.PlayRounds | table.rb:24-46 | the table afterwards holds the rounds of the hand played from the state before; they stop with exactly one player left, or at showdown with at least two; chips plus pot is conserved |
| Tables.Table.GameLoop | table.rb:21-49 | a hand ends with the pot paid out; after an early win exactly one player is unfolded, otherwise the hand reached showdown |
| Tables.Table.FinishHand | table.rb:47 | after an early win the sole unfolded player is credited the pot and nobody else changes; otherwise every player is credited their winnings under the showdown outcome of the unfolded players' best hands; the pot is emptied |

## Left out

- Console rendering is not modelled: `Card#printable_card`, `show_hand`, `print_table`, `hand_intro`, `get_divider` and every message printed by the betting actions, the showdown and the tie breaker. It is display only.
- `User#prompt_user` and `User#raise_bet` are not modelled, nor their re-prompting on invalid input. They read the keyboard. Any decision they can produce is one of the actions `GameLoop` takes from its `moves` input.
- The `User#raise_bet` quirk is not modelled: an out-of-range amount re-prompts and then still bets that amount.
- The `gets` pauses in `game_loop` and `handle_hand_over` are not modelled. The play-again loop, which calls `reset_table` and starts `game_loop` again, is not modelled either. They are keyboard I/O. `ResetTable` and `GameLoop` are modelled separately.
- The shuffle's random choices are an input sequence of rolls, and the first dealer is an input seat. table.rb samples a random seat; poker.rb uses seat 0. No distribution is modelled.
- game.rb is not modelled. It only creates the table and players and calls `game_loop`. The model takes the players as a seated list: seat i holds id i.
- tests.rb is not part of this model.
- `Player#check_bet` is not a member. It only prints, and `ApplyAction` leaves the state unchanged for a check.
- `Bot#determine_action` is modelled as a pure decision function (`DetermineAction`). It is not wired into `GameLoop`, which takes every decision from `moves`. The branch that only prints an error is the decision `None`, and no action is taken.
- The active player of a new table is seat 0 rather than `nil`. It is always set by the preflop setup before it is read.
- Tables.Table.GameLoop: requires a preflop table with every player unfolded. This is the state the constructor and `reset_table` leave. It states only how the hand ends and that the pot is emptied, not the hand state as a value: the shuffle in the setup is specified only up to a permutation, so the state the rounds start from is not a function of the state before. The setup is stated on `SetupPreflop`, the rounds as values on `PlayRounds` (with `RoundsEnd`), and the payouts on `FinishHand`, which it calls.
- Payout.ShowdownOutcome: its own contract says only that a split names at least one player. That the paid players hold the lowest score is proved in `OutcomePaysEntrants`, and who among them is paid in `UniqueBestTakesPot`, `SplitCategoryTiesSplit` and `KickerTieOutcome`.
- Tables.Table.ResetTable: the table's deck object is filled again with the 52 cards instead of being replaced by a new `Deck`. No other object refers to the deck, so the states are the same.
- Cards.Deck.Shuffle: states only that the result is a permutation. The three successive random shuffles are one Fisher-Yates pass driven by the rolls.
- Integers are unbounded, as in Ruby.
