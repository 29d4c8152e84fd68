# Sprint Blackjack and Scope Creep Survivor, modelled in Dafny

The portfolio site has two small games with real rules behind them. This
project models both and proves what their code promises.

- **Sprint Blackjack** (`src/components/games/BlackjackGame.tsx`) is blackjack played for
  "stakeholder confidence". The player starts with 100 confidence and bets
  some of it each round. A natural 21 pays twice the bet. A bust loses the
  bet. A stood hand is settled against the dealer, who draws while below 17.
  Reaching 1000 confidence wins the game and reaching 0 loses it. Streak
  statistics are kept across rounds.
- **Scope Creep Survivor** (`src/components/ScopeCreepSurvivor.tsx`) is a dodging game.
  The player's square sits on a 640 x 300 field. Feature requests fly across
  it: bad ones cost a hit, good ones add progress. A power-up clears the
  field and forgives a hit. Progress 100 wins and five hits lose. The
  satisfaction score left at the end is saved as the best only when it
  improves on it.

Files:

- `options.dfy` (module `Options`): the `Option` type used for stored values.
- `cards.dfy` (module `Cards`): ticket ids as a function with a lemma listing
  them; the 52-card deck, the Fisher-Yates shuffle and the soft-ace hand value,
  each a method with a loop proved against a specification function.
- `sprint_blackjack.dfy` (module `SprintBlackjack`): settlement, phase and
  stats rules as functions on a `Table` value, and the class `Session`. The
  class's fields are the component's state, and each of its methods is proved
  equal to the `Table` function for that action.
- `scope_creep.dfy` (module `ScopeCreep`): phase, timing, geometry and
  move/cull/collide rules as functions on a `World` value, and the class `Game`.
  Its `Tick` runs one animation frame step by step and is proved equal to
  `TickOutcome`.

Randomness is an input. A shuffle takes its swap indices as a plan (`DeckPlan`),
each index in `[0, i]` as `Math.floor(Math.random() * (i + 1))` yields it. A
frame takes its launches and power-up rolls as `Draws`. Browser storage is a
field (`storage`) or a constructor argument (`saved`, `stored`). Positions,
speeds and times are exact reals.

## Model

| member | source | states |
|---|---|---|
| Cards.TicketIdsListed | src/components/games/BlackjackGame.tsx:94-104 | the ticket id of each of the thirteen ranks is the listed one: A is EPIC-1, 2-4 are BUG-n, 5-7 are TASK-n, 8-10 are STORY-n, J is SPIKE-J, Q is FEATURE-Q, K is FEATURE-K |
| Cards.TicketIdsDistinct | src/components/games/BlackjackGame.tsx:94-104 | no two ranks of a suit share a ticket id |
| Cards.FullDeck | src/components/games/BlackjackGame.tsx:106-127 | the fresh deck has exactly 52 cards |
| Cards.CreateDeck | src/components/games/BlackjackGame.tsx:106-127 | the nested suit/rank loops build exactly the fresh deck, suit by suit and rank by rank |
| Cards.FullDeckHasEveryPair | src/components/games/BlackjackGame.tsx:106-127 | every (suit, rank) pair has its card in the fresh deck |
| Cards.FullDeckHasOnlyPairs | src/components/games/BlackjackGame.tsx:106-127 | every card of the fresh deck is the card of some standard (suit, rank) pair |
| Cards.FullDeckHasNoRepeats | src/components/games/BlackjackGame.tsx:106-127 | no card occurs twice in the fresh deck, so it holds one card per pair |
| Cards.DeckSlot | src/components/games/BlackjackGame.tsx:110-124 | slot 13 * s + v of the fresh deck holds the card of suit s and rank v |
| Cards.RankValue | src/components/games/BlackjackGame.tsx:114-117 | a rank is worth 11 exactly when it is the ace, and any other rank is worth 2 to 10 |
| Cards.StandardCardValues | src/components/games/BlackjackGame.tsx:114-117 | a card of the fresh deck is worth 11 exactly when it is an ace, 2 to 10 otherwise, and 1 to 10 with aces low |
| Cards.ShuffledFrom | src/components/games/BlackjackGame.tsx:129-136 | the remaining swaps of the shuffle keep the list's length |
| Cards.Shuffled | src/components/games/BlackjackGame.tsx:129-136 | a shuffle keeps the list's length |
| Cards.SwapIsPermutation | src/components/games/BlackjackGame.tsx:133 | swapping two slots keeps the length and the multiset of cards |
| Cards.ShuffledFromIsPermutation | src/components/games/BlackjackGame.tsx:131-134 | any run of the shuffle's remaining swaps yields a permutation of its input |
| Cards.ShuffledIsPermutation | src/components/games/BlackjackGame.tsx:129-136 | a shuffle returns a permutation of its input: same length, same cards with the same multiplicities |
| Cards.ShuffleDeck | src/components/games/BlackjackGame.tsx:129-136 | the descending swap loop on a copy of the deck computes the shuffle of the plan and returns a permutation of the deck; the argument, a value, is left as it was |
| Cards.HardTotalAppend | src/components/games/BlackjackGame.tsx:142-149 | adding a card adds its ace-low points to the hard total and one to the ace count when it is an ace |
| Cards.HighAcesIsBest | src/components/games/BlackjackGame.tsx:151-154 | the number of aces counted high is at most the aces held, keeps the total within 21 when positive, and is the largest that does |
| Cards.HandValueIsBestTotal | src/components/games/BlackjackGame.tsx:138-157 | the hand value is the hard total plus 10k for some k between 0 and the aces held; it is the best such total within 21 when one exists, exceeds 21 only as the hard total, and is 0 for the empty hand |
| Cards.CalculateHandValue | src/components/games/BlackjackGame.tsx:138-157 | the count-aces-high loop followed by the drop-aces-to-one loop returns the hand value |
| SprintBlackjack.DrawFrom | src/components/games/BlackjackGame.tsx:336-344 | with 15 or more cards the draw takes the top card and leaves the rest; below 15 the deck is replaced by a shuffled fresh deck whose first card is drawn and whose other 51 cards are kept, together a permutation of the 52; standard cards stay standard |
| SprintBlackjack.PermutationOfFullDeckIsStandard | src/components/games/BlackjackGame.tsx:296 | any permutation of the fresh deck holds only standard cards |
| SprintBlackjack.DealTakesTopFour | src/components/games/BlackjackGame.tsx:357-360 | with 18 or more cards the sequential deal gives the player cards 0 and 2 and the dealer cards 1 and 3, and keeps the rest |
| SprintBlackjack.TwoCardTotals | src/components/games/BlackjackGame.tsx:138-157 | a two-card hand's hard total and ace count are the sums of its cards' |
| SprintBlackjack.OpeningHandWithin21 | src/components/games/BlackjackGame.tsx:382-386 | two standard cards are worth at most 21, so an opening hand never busts |
| SprintBlackjack.SnapshotDealRepeatsTopCard | src/components/games/BlackjackGame.tsx:336-360 | as written, the four draws of one bet all read the same deck, so with 15 or more cards every seat gets the top card and one card is used up |
| SprintBlackjack.SnapshotDealNeverNatural | src/components/games/BlackjackGame.tsx:357-386 | as written, a deal from a deck of 15 or more standard cards never gives the player a natural 21 |
| SprintBlackjack.SequentialDealCanBeNatural | src/components/games/BlackjackGame.tsx:357-386 | the sequential deal does give a natural 21 when an ace and a king lie two cards apart on top |
| SprintBlackjack.DealerDrawsBelowSeventeen | src/components/games/BlackjackGame.tsx:442-460 | the dealer keeps its cards, ends with a value of 17 or more, and drew each new card only while the hand held before it was below 17 |
| SprintBlackjack.PhaseAfterRound | src/components/games/BlackjackGame.tsx:538-545 | after a stood round the game is won exactly at 1000 or more, lost exactly at 0 or less, and in retrospective otherwise |
| SprintBlackjack.PhaseAfterNatural | src/components/games/BlackjackGame.tsx:409-416 | after a natural 21 the game is won exactly at 1000 or more and in retrospective otherwise, never lost |
| SprintBlackjack.PhaseAfterBust | src/components/games/BlackjackGame.tsx:492-496 | after a bust the game is lost exactly at 0 or less and in retrospective otherwise, never won |
| SprintBlackjack.Resolve | src/components/games/BlackjackGame.tsx:500-527 | a stood round is won exactly when the dealer busts or is beaten, and then pays the bet; a loss to a higher dealer costs the bet; equal values change nothing |
| SprintBlackjack.ResolveIsAntisymmetric | src/components/games/BlackjackGame.tsx:508-527 | between two hands within 21, swapping the player's and the dealer's values negates the change in confidence |
| SprintBlackjack.RecordRound | src/components/games/BlackjackGame.tsx:400-406 | a settled round counts one more sprint; a win extends the streak and a loss resets it; the best streak never falls below the streak; the peak confidence never decreases and covers the new confidence |
| SprintBlackjack.RecordBust | src/components/games/BlackjackGame.tsx:485-489 | a bust counts one more sprint, resets the streak and leaves the best streak and peak confidence alone |
| SprintBlackjack.RecordRestart | src/components/games/BlackjackGame.tsx:560-566 | a restart resets the streak only, keeping the sprint count, best streak and peak confidence |
| SprintBlackjack.InitialTable | src/components/games/BlackjackGame.tsx:292-316 | a session opens in betting with 100 confidence, no bet, empty hands, no double down and the fresh deck shuffled by the plan, a permutation of it; its stats are the stored ones when some are stored and the initial ones otherwise |
| SprintBlackjack.Natural | src/components/games/BlackjackGame.tsx:391-417 | a natural pays twice the bet, counts as a won round and takes the phase the natural rule gives (gameWon or retrospective), changing nothing else |
| SprintBlackjack.Bust | src/components/games/BlackjackGame.tsx:477-497 | a bust costs the bet, counts as a bust in the stats and takes the phase the bust rule gives (gameOver or retrospective), changing nothing else |
| SprintBlackjack.Settle | src/components/games/BlackjackGame.tsx:500-546 | a stood round's confidence and stats follow the settlement of the two hand values, and its phase is the one the round rule gives for the new confidence, changing nothing else |
| SprintBlackjack.DealerTurn | src/components/games/BlackjackGame.tsx:442-460 | the dealer's hand and deck become the dealer's play from the old ones: it keeps its cards, draws each card only while below 17, ends at 17 or more, and nothing else changes |
| SprintBlackjack.StandOutcome | src/components/games/BlackjackGame.tsx:437-463 | outside play Ship It does nothing; in play the dealer's hand and deck become the dealer's play of its old hand (17 or more), confidence and stats follow the settlement of the player's value against that hand, and the phase is the one the new confidence calls for; the player's hand and bet are untouched |
| SprintBlackjack.HitOutcome | src/components/games/BlackjackGame.tsx:420-434 | outside play Iterate does nothing; in play the drawn card joins the player's hand and the deck loses it; over 21 the round settles as a bust (bet lost, bust stats, bust phase, dealer untouched); within 21 the round stays in play with confidence, stats and dealer unchanged, unless a double down was made, when the dealer plays from the deck left and the round settles against that hand |
| SprintBlackjack.DoubleDownOutcome | src/components/games/BlackjackGame.tsx:466-474 | doubleDown acts only in play with two cards and confidence at least the bet; then it deducts the bet, doubles it and settles on exactly the drawn card, the dealer playing from the deck left unless the card busts: a bust or a loss costs three bets, a push one bet, a win gains one bet, with the matching stats; the phase is the bust phase after a bust (lost at 0 or less) and the round phase otherwise (won at 1000 or more, lost at 0 or less) |
| SprintBlackjack.PlaceBetOutcome | src/components/games/BlackjackGame.tsx:347-388 | a bet above the confidence is ignored; otherwise the hands and deck are those of four successive draws (player, dealer, player, dealer), and the round stays in play exactly when the player has no natural 21; a natural pays twice the bet at once, records a won round and moves to the natural's phase (won at 1000 or more, retrospective otherwise) |
| SprintBlackjack.NextSprint | src/components/games/BlackjackGame.tsx:549-557 | planning the next sprint returns to betting with empty hands, no bet and no double down, keeping confidence, deck and stats |
| SprintBlackjack.RestartOutcome | src/components/games/BlackjackGame.tsx:560-566 | a restart returns to betting with 100 confidence, no bet, no double down, empty hands, the fresh deck shuffled by the plan (a permutation of it) and the streak reset |
| SprintBlackjack.DoubleDownNetOutcome | src/components/games/BlackjackGame.tsx:466-474 | a double down moves confidence by one of +bet, -bet or -3 bets, and the streak grows exactly on +bet |
| SprintBlackjack.DoubleDownAsWritten | src/components/games/BlackjackGame.tsx:420-434 | as written, the double down's stale iterate leaves a card within 21 in play, and its stale handleBust sets confidence to the old confidence less the old bet |
| SprintBlackjack.DoubleDownBustAsWrittenCostsOneBet | src/components/games/BlackjackGame.tsx:466-497 | on a table with 100 confidence, a bet of 10, king and queen in hand and a king on top, a double down busts: as written confidence ends at 90, with the deduction kept at 70 |
| SprintBlackjack.RoundCountedOnce | src/components/games/BlackjackGame.tsx:400-406 | a stand and a double down always settle the round and count exactly one more sprint |
| SprintBlackjack.BetCountedOnce | src/components/games/BlackjackGame.tsx:396-416 | a bet within the confidence either deals a round still in play with the stats untouched, or settles a natural and counts exactly one more sprint |
| SprintBlackjack.HitCountsOnce | src/components/games/BlackjackGame.tsx:420-434 | a hit either leaves the stats untouched while the round is in play or counts exactly one more sprint |
| SprintBlackjack.StandMovesAtMostTheBet | src/components/games/BlackjackGame.tsx:500-535 | a stand moves confidence by at most the bet and extends the streak exactly when the dealer busts or is beaten |
| SprintBlackjack.Session.constructor | src/components/games/BlackjackGame.tsx:292-316 | a new session is the initial table, with standard cards |
| SprintBlackjack.Session.DrawCard | src/components/games/BlackjackGame.tsx:336-344 | drawing returns the card and leaves the deck as the draw rule says, refilling below 15 cards |
| SprintBlackjack.Session.Deal | src/components/games/BlackjackGame.tsx:357-360 | the deal gives player and dealer their two cards each, drawn in turn from the deck each previous draw left |
| SprintBlackjack.Session.HandleBlackjack | src/components/games/BlackjackGame.tsx:391-417 | the session's new state is the natural-21 settlement of the old one |
| SprintBlackjack.Session.HandleBust | src/components/games/BlackjackGame.tsx:477-497 | the session's new state is the bust settlement of the old one |
| SprintBlackjack.Session.ResolveRound | src/components/games/BlackjackGame.tsx:500-546 | the session's new state is the settlement of the old one against the dealer's final hand |
| SprintBlackjack.Session.PlaceBet | src/components/games/BlackjackGame.tsx:347-388 | placing a bet moves the session exactly as the bet rule says and keeps it consistent |
| SprintBlackjack.Session.CanDoubleDown | src/components/games/BlackjackGame.tsx:570 | the All-In option is offered exactly when doubleDown would act and no double down has been made |
| SprintBlackjack.Session.ShipIt | src/components/games/BlackjackGame.tsx:437-463 | the dealer's draw loop and the settlement move the session exactly as the stand rule says and keep it consistent |
| SprintBlackjack.Session.Iterate | src/components/games/BlackjackGame.tsx:420-434 | a hit moves the session exactly as the hit rule says and keeps it consistent |
| SprintBlackjack.Session.DoubleDown | src/components/games/BlackjackGame.tsx:466-474 | a double down moves the session exactly as the double-down rule says and keeps it consistent |
| SprintBlackjack.Session.PlanNextSprint | src/components/games/BlackjackGame.tsx:549-557 | the session's new state is the next sprint's betting table |
| SprintBlackjack.Session.RestartGame | src/components/games/BlackjackGame.tsx:560-566 | the session's new state is the restarted table, which is consistent |
| ScopeCreep.PlayerSize | src/components/ScopeCreepSurvivor.tsx:113 | the player is never smaller than its starting 24 units |
| ScopeCreep.MvpSpeed | src/components/ScopeCreepSurvivor.tsx:114 | progress per frame is at least 0.02, and at most 0.06 |
| ScopeCreep.Satisfaction | src/components/ScopeCreepSurvivor.tsx:487 | satisfaction lies in 0..100 and is 0 at five hits or more |
| ScopeCreep.DerivedMonotone | src/components/ScopeCreepSurvivor.tsx:113-114 | more hits never shrink the player, never speed progress up and never raise satisfaction |
| ScopeCreep.DeltaTime | src/components/ScopeCreepSurvivor.tsx:254 | a frame lasts 1 on the first tick; otherwise it is the elapsed time in 16.67 ms units, and exactly 3 once more than three frames have elapsed |
| ScopeCreep.GetPhase | src/components/ScopeCreepSurvivor.tsx:146-151 | the phase lies in 0..3 |
| ScopeCreep.PhaseCountsThresholds | src/components/ScopeCreepSurvivor.tsx:146-151 | the phase is the number of thresholds 25, 50 and 75 that progress has reached |
| ScopeCreep.PhaseMonotone | src/components/ScopeCreepSurvivor.tsx:146-151 | the phase never decreases as progress grows |
| ScopeCreep.SpawnInterval | src/components/ScopeCreepSurvivor.tsx:289 | frames between spawns are at least 8 and are 30, 24, 18, 12 for phases 0 to 3 |
| ScopeCreep.BatchSize | src/components/ScopeCreepSurvivor.tsx:293 | a spawn brings 1 to 3 requests |
| ScopeCreep.LaterPhasesSpawnMore | src/components/ScopeCreepSurvivor.tsx:289-293 | a later phase spawns no less often and in no smaller batches |
| ScopeCreep.PowerUpThreshold | src/components/ScopeCreepSurvivor.tsx:305 | for a roll in [0, 1) the power-up interval lies between 900 and 1200 ms in frame units |
| ScopeCreep.Clamp | src/components/ScopeCreepSurvivor.tsx:431-432 | a clamped coordinate lies 12 units inside the field, equals the input when it already does, and is otherwise the nearest bound |
| ScopeCreep.MapToGame | src/components/ScopeCreepSurvivor.tsx:453-460 | a mapped pointer position always lies inside the field |
| ScopeCreep.MapToGameIsProportional | src/components/ScopeCreepSurvivor.tsx:453-460 | away from the edges the mapping is exactly the pointer's proportion of the element's box |
| ScopeCreep.OverlapsIffSharedPoint | src/components/ScopeCreepSurvivor.tsx:332-336 | the strict overlap test holds exactly when the two open boxes share a point, so touching edges never collide |
| ScopeCreep.Moved | src/components/ScopeCreepSurvivor.tsx:326 | a request moves by (vx dt, vy dt) and keeps its id, kind, size and speed |
| ScopeCreep.SurvivorsAreTheStaying | src/components/ScopeCreepSurvivor.tsx:324-349 | a request survives exactly when it is the moved form of an input request that was neither culled nor caught; survivors are on the field and clear of the player |
| ScopeCreep.StruckCountCounts | src/components/ScopeCreepSurvivor.tsx:322-349 | the hit flag is raised exactly when some bad request struck; struck, caught and surviving requests together are no more than the input |
| ScopeCreep.SweepRequests | src/components/ScopeCreepSurvivor.tsx:317-350 | the move-cull-collide pass keeps the survivors, raises the hit flag exactly when a bad request struck, and counts the good ones caught |
| ScopeCreep.PickupsPartition | src/components/ScopeCreepSurvivor.tsx:374-395 | every power-up is either picked up or kept, and the kept ones are exactly those the player does not touch |
| ScopeCreep.NoPickupKeepsAll | src/components/ScopeCreepSurvivor.tsx:374-395 | with nothing picked up the power-up list is unchanged |
| ScopeCreep.SweepPowerUps | src/components/ScopeCreepSurvivor.tsx:374-395 | the power-up pass keeps exactly the power-ups not touched and counts the ones picked up |
| ScopeCreep.Bonus | src/components/ScopeCreepSurvivor.tsx:342 | good tickets never take progress above 100 |
| ScopeCreep.BonusIsCappedSum | src/components/ScopeCreepSurvivor.tsx:342 | n good tickets add 6n to progress, capped at 100 |
| ScopeCreep.Relief | src/components/ScopeCreepSurvivor.tsx:390 | pickups never take hits below 0 nor raise them |
| ScopeCreep.ReliefIsFlooredDifference | src/components/ScopeCreepSurvivor.tsx:390 | n pickups take n hits away, floored at 0 |
| ScopeCreep.AppendRequestsIncreasing | src/components/ScopeCreepSurvivor.tsx:294-299 | appending requests with larger ids keeps the ids increasing |
| ScopeCreep.AppendPowerUpsIncreasing | src/components/ScopeCreepSurvivor.tsx:307-313 | appending power-ups with larger ids keeps the ids increasing |
| ScopeCreep.SurvivorIdsComeFromInput | src/components/ScopeCreepSurvivor.tsx:324-349 | every surviving request carries the id of an input request |
| ScopeCreep.SurvivorsKeepOrder | src/components/ScopeCreepSurvivor.tsx:324-349 | the survivors keep the increasing order of ids |
| ScopeCreep.UncollectedKeepsOrder | src/components/ScopeCreepSurvivor.tsx:374-395 | the power-ups left come from the input and keep the increasing order of ids |
| ScopeCreep.InitialWorld | src/components/ScopeCreepSurvivor.tsx:141-144 | the game opens on the start screen with the stored best score, or 0 when none is stored |
| ScopeCreep.Started | src/components/ScopeCreepSurvivor.tsx:233-249 | a new run is playing with the player centred, empty lists, no progress or hits, no new-best flag, the phase tracker at -1, and all timers and the id counter at zero, keeping the best score |
| ScopeCreep.RecordScore | src/components/ScopeCreepSurvivor.tsx:273-278 | a score is saved, flagged as new and stored only when it beats the best the frame began with; otherwise nothing changes |
| ScopeCreep.AdvanceProgress | src/components/ScopeCreepSurvivor.tsx:258-283 | progress grows by mvpSpeed dt capped at 100; the game is won exactly when it reaches 100, with progress exactly 100; on a win the satisfaction of the frame's starting hits is saved, flagged and stored exactly when it beats the best, and otherwise the best score is untouched |
| ScopeCreep.Batch | src/components/ScopeCreepSurvivor.tsx:294-299 | a batch of n requests takes n consecutive ids from the counter, each with its launch's position and speed and the 90 x 24 box |
| ScopeCreep.SpawnRequests | src/components/ScopeCreepSurvivor.tsx:286-301 | the spawn timer accumulates dt; once past the phase's interval it resets and exactly the phase's batch, with fresh ids from the counter, is appended; ids stay unique |
| ScopeCreep.SpawnKeepsIdsSound | src/components/ScopeCreepSurvivor.tsx:163 | appending requests with ids taken from the counter keeps every id issued and unique |
| ScopeCreep.SpawnPowerUp | src/components/ScopeCreepSurvivor.tsx:304-314 | the power-up timer accumulates dt; once past its threshold it resets and a 36 x 36 power-up with a fresh id appears; ids stay unique |
| ScopeCreep.AddHit | src/components/ScopeCreepSurvivor.tsx:352-366 | a hit adds exactly one and ends the game exactly when it reaches five; only then is the satisfaction of the new hit count saved, and only when it beats the best, so with a non-negative best a hit never saves |
| ScopeCreep.CollideRequests | src/components/ScopeCreepSurvivor.tsx:317-368 | after a frame's request pass the survivors remain, each good ticket caught adds capped progress, any number of strikes add exactly one hit, five hits end the game, and the satisfaction of five or more hits is saved only when it beats the best, so a non-negative best is never written |
| ScopeCreep.CollectPowerUps | src/components/ScopeCreepSurvivor.tsx:374-395 | touched power-ups are removed; any pickup empties the request list and each one takes a hit away, floored at 0; with no pickup nothing changes |
| ScopeCreep.TickOutcome | src/components/ScopeCreepSurvivor.tsx:251-398 | outside play a frame changes nothing; in play it records the timestamp, never moves the player, and keeps every invariant of the game |
| ScopeCreep.TickAddsAtMostOneHit | src/components/ScopeCreepSurvivor.tsx:322-366 | a frame adds at most one hit however many bad requests strike, and loses the game only when that hit reaches five |
| ScopeCreep.TickSavesOnlyOnWin | src/components/ScopeCreepSurvivor.tsx:273-278 | with a non-negative best, a frame changes the best score only by a win: it saves the satisfaction of the frame's starting hits, which beats the old best, flagged and stored, with progress full; a game over never saves |
| ScopeCreep.TickSavesOnlyImprovements | src/components/ScopeCreepSurvivor.tsx:273-278 | within a frame the best score never falls, and any rise is flagged as new and stored |
| ScopeCreep.KeyMove | src/components/ScopeCreepSurvivor.tsx:423-436 | keyboard movement happens only while playing with keys that do not cancel out, keeps the game's invariants and changes only the player's position |
| ScopeCreep.KeyMoveStaysInField | src/components/ScopeCreepSurvivor.tsx:411-432 | a key step moves each axis by at most 4 units, and any step that moves lands inside the field |
| ScopeCreep.PointerMoved | src/components/ScopeCreepSurvivor.tsx:463-477 | outside play a pointer move changes nothing; in play the player lands inside the field and nothing else changes |
| ScopeCreep.Game.constructor | src/components/ScopeCreepSurvivor.tsx:98-107 | the new game is the initial world, which satisfies every invariant |
| ScopeCreep.Game.StartGame | src/components/ScopeCreepSurvivor.tsx:233-249 | the game's new state is a started run of the old one |
| ScopeCreep.Game.ResetRun | src/components/ScopeCreepSurvivor.tsx:234-242 | playing, with no progress, no hits and no new best flag; nothing else changes |
| ScopeCreep.Game.ResetField | src/components/ScopeCreepSurvivor.tsx:235-238 | the player centred and both lists empty; nothing else changes |
| ScopeCreep.Game.ResetLoop | src/components/ScopeCreepSurvivor.tsx:243-247 | timers, phase, timestamp and id counter reset; nothing else changes |
| ScopeCreep.Game.PressSpace | src/components/ScopeCreepSurvivor.tsx:418 | space starts a run from the start screen only and otherwise changes nothing |
| ScopeCreep.Game.SaveIfBest | src/components/ScopeCreepSurvivor.tsx:273-278 | the game's new state records the score only when it beats the given best |
| ScopeCreep.Game.AdvanceProgressStep | src/components/ScopeCreepSurvivor.tsx:258-283 | the game's new state is the progress step of the old one |
| ScopeCreep.Game.SpawnRequestsStep | src/components/ScopeCreepSurvivor.tsx:286-301 | the game's new state is the spawn step of the old one, the batch built in a loop |
| ScopeCreep.Game.SpawnPowerUpStep | src/components/ScopeCreepSurvivor.tsx:304-314 | the game's new state is the power-up spawn step of the old one |
| ScopeCreep.Game.CollideStep | src/components/ScopeCreepSurvivor.tsx:317-368 | the game's new state is the collision step of the old one |
| ScopeCreep.Game.RegisterHit | src/components/ScopeCreepSurvivor.tsx:352-366 | the game's new state is the old one with one hit added |
| ScopeCreep.Game.CollectStep | src/components/ScopeCreepSurvivor.tsx:374-395 | the game's new state is the pickup step of the old one |
| ScopeCreep.Game.Tick | src/components/ScopeCreepSurvivor.tsx:251-398 | one frame moves the game exactly as the frame rule says and keeps every invariant |
| ScopeCreep.Game.MoveByKeys | src/components/ScopeCreepSurvivor.tsx:423-436 | a frame of keyboard movement moves the player as the key rule says and keeps every invariant |
| ScopeCreep.Game.PointerMove | src/components/ScopeCreepSurvivor.tsx:463-477 | a pointer move places the player as the pointer rule says and keeps every invariant |

## Left out

- Rendering, animation, sounds, confetti, messages, the tutorial overlay, the phase label and edge glow, and the `containerWidth` scale factor: presentation only.
- `setTimeout` delays and `requestAnimationFrame` scheduling: each action runs its logical steps in order at once.
- Stale React closures in Sprint Blackjack, except the opening deal and the double down (see Findings). `shipIt`'s dealer draws would also read the deck of one render; the model draws each card from the deck the previous draw left.
- SprintBlackjack.Session.DoubleDown: the `iterate` called by `doubleDown`, and the `handleBust` that iterate schedules, belong to the render before the double down. As written, a double down that does not bust leaves the round in play, and one that busts costs one bet, because that handleBust sets confidence from the old confidence and bet. The model settles on the double-down card against the deducted confidence and the doubled bet; `DoubleDownAsWritten` and the Findings row record the code as written.
- SprintBlackjack.Session.HandleBlackjack: as written, the `handleBlackjack` reached from `placeBet` reads the bet and confidence of the render before the bet was placed. The model pays twice the bet just placed.
- Saving stats to `localStorage`, and parsing the stored JSON: the saved stats come in as the `saved` argument and are assumed well formed.
- The stored best score of Scope Creep is the `storage` field and the constructor's `stored` argument. A stored text that `parseInt` reads as `NaN` is not modelled.
- `Math.random` results are inputs: a `DeckPlan` of swap indices per shuffle, and `Draws` per frame. One plan serves every refill within one action.
- The spawn geometry of `spawnRequest` (trigonometry on the player's position, speeds by phase, label picks) is not part of this model. Each request's position, speed and kind come from the `Launch` oracle in `Draws`; its id and size are modelled.
- ScopeCreep.DeltaTime: a timestamp earlier than the last one yields a negative frame, as in the code; nothing clamps it at 0.
- ScopeCreep.TickOutcome: in the code, the progress update, the request list and the hit counter go through React updater functions applied after the frame. The model applies them in the order the frame issues them, reading the hits, player position, progress (for the spawn phase) and best score of the start of the frame. A good ticket that brings progress to 100 is noticed as a win on the next frame, as in the code.
- ScopeCreep.Game.Tick: the frame loop is re-created when `mvpSpeed` or the best score changes, and the game-state effect resets `lastTime` to 0 when play starts; only the reset in `startGame` is modelled.
- ScopeCreep.Game.PointerMove: requires a bounding box of positive width and height; a zero-size element would divide by zero in the code.
- SprintBlackjack.DoubleDownNetOutcome: stated for a positive bet and a non-negative streak, the only values a session reaches.
- SprintBlackjack.StandMovesAtMostTheBet: stated for a non-negative bet and a non-negative streak, the only values a session reaches.
- The other pages and components of the site (static content, routing, the title suffix) and the runner game, whose code is not part of this model.

## Findings

| source | as written | input that shows it | evidently intended | confidence | as-written member | corrected member |
|---|---|---|---|---|---|---|
| src/components/games/BlackjackGame.tsx:336-360 | `placeBet` calls `drawCard()` four times in one render; each call reads the same `deck`, so all four return its top card and the deck loses only one card | any deck of 15 or more cards: the player gets `[deck[0], deck[0]]`, the dealer the same, and a natural 21 can never be dealt | the four cards are drawn one after another, each from the deck the previous draw left | not executed | SprintBlackjack.SnapshotDealNeverNatural | SprintBlackjack.SequentialDealCanBeNatural |
| src/components/games/BlackjackGame.tsx:466-497 | `doubleDown` deducts the bet and doubles it, then calls the `iterate` of the render before; that iterate sees no double down, and on a bust its `handleBust` sets confidence to the old confidence less the old bet, replacing the deduction | confidence 100, bet 10, king and queen in hand, a king on top: the double down busts at 30 and confidence ends at 90, one bet lost; a card within 21 leaves the round in play | the round settles on the double-down card against the deducted confidence and the doubled bet: a bust costs three bets (70) | not executed | SprintBlackjack.DoubleDownBustAsWrittenCostsOneBet | SprintBlackjack.DoubleDownOutcome |
