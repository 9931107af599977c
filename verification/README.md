# Verified rules engines

A Dafny model of the three game rules engines under `internal/games` (Ticket to Ride, Guess the
Song, poker) and of the cache of song packs, with proofs of what they promise over whole games.

Each engine is modelled twice, and the two are proved equal:

- a pure specification: one datatype for the stored state and one function per action
  (`TtrRules`, `SongRules`, `PokerRules` with `PokerShowdown`), on which the laws are proved;
- a class with the fields of the stored state, whose methods overwrite them step by step, with the
  loops of the program (`TtrEngine.GameState`, `SongEngine.GameState`, `PokerEngine.TableState`).
  Every method says that the new `Snapshot()` is what the specification makes of the old one, so
  every law about the specification is a law about the class.

Algorithms that only read (pot layering, the trail search, the station optimiser, payment
enumeration) are methods proved against a declarative specification.

The laws, per engine:

- **Poker.** `PokerPots` (side pots are exactly the layers of matched contributions),
  `PokerShowdown` and `PokerWinners` (exact account of a showdown, who wins what), `PokerLaws` (what
  every action keeps, and exactly when chips vanish), `PokerHands` (dealing, termination, advertised
  actions are accepted), `PokerTurns` (button, blinds, order of turns, what an action costs),
  `PokerDeals` (who holds which cards), `PokerShares` (how a pot is split), `PokerFolds` (which fold
  loses chips, and that nothing else does), `PokerCases` (a hand, dealt from a new table, that loses
  chips).
- **Guess the Song.** `SongLaws` (the invariant), `SongLedger` and `SongWhole` (scores and songs are
  conserved), `SongAnswers` (who gets the points of an answer), `SongSteps` (what each other action
  does, and who may do it), `SongProgress` and `SongRuns` (every game without voided decisions
  ends), `SongLegal` (advertised actions are exact, somebody can always go on), `SongPackCache` (the
  LRU).
- **Ticket to Ride.** `TtrTrail`, `TtrUnionFind`, `TtrStations`, `TtrPayment` (the algorithms),
  `TtrFlow` (phase, turn and counter), `TtrCustody` (cards and tickets), `TtrLedger` (the board),
  `TtrFinalRound` (the last round, resignations), `TtrActions`, `TtrTunnels` and `TtrTickets` (what
  each action does and costs), `TtrDeals` (what a new game holds), `TtrSurcharge` (answers to a
  tunnel), `TtrOptions` (when somebody can go on), `TtrScoring` and `TtrRanking` (final scores and
  ranks), `TtrSetup` and `TtrRuns` (new games, whole games), `TtrCases` (games, from their
  beginning, in which the promises below fail).

Shuffles are an arbitrary function of the number of shuffles done so far and the cards to shuffle;
laws about cards ask only that it returns a permutation (`Fair`). The random draw of a song is an
arbitrary number. Hand strength in poker is an arbitrary function to the integers. User ids are
abstract numbers, and integers are unbounded.

Inductive proofs call themselves; automatic induction is switched off (`{:induction false}`) wherever
Dafny would try it.

`dafny verify dfyconfig.toml` checks the whole project.

## Where the code differs from what a reader may expect

The model follows the code in every case.

- Poker loses chips when two folded players put in more than every player still in the hand:
  `buildPots` skips a layer that only folded seats reach, and a fold is legal with nothing to call.
  In a dealt hand that happens exactly when the last action is a fold as described by
  `PokerFolds.FoldStrands`, which speaks of the table before the call (`PokerFolds.OnlyFoldsLose`,
  `PokerFolds.LostExactly`). `PokerCases.ChipsCanVanish` plays such a hand from a new table, for
  every deck and every hand evaluation.
- A Ticket to Ride player who resigns in turn hands the turn to the lowest active seat, not to the
  next one clockwise: when exactly, `TtrFinalRound.ResignPassesToLowest`; that it happens in new
  games, `TtrCases.TurnCanSkip`.
- A resignation during setup does not look again whether everybody has answered, so the game can
  get stuck: when exactly, `TtrFinalRound.StuckIff`; that it can in every new game of three or more
  players, `TtrCases.SetupCanStick`.
- A game that ends because an opponent resigned may keep a parked decision: when exactly,
  `TtrFinalRound.FinishedParkedIff`; that it can in new games of two players,
  `TtrCases.CanEndParked`.
- Redealing a face-up row with three locomotives stops after 25 rows or when the row cannot be
  dealt in full, so such a row can remain: when exactly, `TtrCards.TakenRow`; what the counts on the
  table say before the call, `TtrCards.TakenRowForeseen`; a table where it remains whatever the
  shuffle, `TtrCards.ThreeStay`.
- An accepted tunnel whose surcharge payment holds more cards of a legal colour than the hand is
  treated like a declined one: the claim is forfeited and the turn ends, even when the hand could
  have paid the surcharge (`TtrSurcharge.AcceptForfeitsIff`, `TtrSurcharge.OverOfferForfeits`,
  `TtrCases.AbleButForfeits`). If the payment names a colour that is not allowed as well, the order
  in which a map is visited decides: one order refuses the action with an error, the other accepts
  it, refunds, forfeits the claim and ends the turn. Here alone an action is not a function of state
  and input (`TtrSurcharge.OrderMattersIff`, `TtrCases.SameAnswerTwoOutcomes`). The specification
  takes the order as a parameter (`handFirst`), which `TtrSurcharge.VerdictHasOrder` and
  `TtrSurcharge.OrderGivesVerdict` tie to real orders; `TtrEngine.Apply` promises the outcome of one
  of them. The comment in the source promises that a payment of wrong colours or total never forfeits
  the claim; exactly when that holds in every order, `TtrSurcharge.WrongIsRefusedIff`.
- Ticket to Ride has no pass: a player to move may have nothing but resigning left
  (`TtrOptions.TurnOpenIff`, `TtrOptions.SomebodyCanIff`).

## Model

| member | source | states |
|---|---|---|
| PokerPots.BuildPots | internal/games/poker/betting.go:280-325 | One pass over the distinct contribution levels gives the specified pots: empty layers dropped, layers with the same winners merged. |
| PokerPots.LayerPots | internal/games/poker/betting.go:299-325 | The loop over any list of levels yields the pots of those levels, amounts and eligible seats included. |
| PokerPots.PotsAreLayers | internal/games/poker/betting.go:280-325 | For every seat still in the hand the pots listing it sum to what its contribution matches from each seat; all pots together hold every contribution up to the best unfolded one. |
| PokerPots.PotsAreWinnable | internal/games/poker/betting.go:305-325 | Every pot is worth something and lists only unfolded contributors, at least one. |
| PokerShowdown.AwardPotKeeps | internal/games/poker/betting.go:398-410 | A pot with a winner is paid out to the last chip, nobody loses, nothing but stacks changes; who gets what, `PokerShares.AwardPotShares`. |
| PokerShowdown.AwardKeeps | internal/games/poker/betting.go:362-388 | Awarding all pots adds exactly their sum to the stacks. |
| PokerShowdown.ReturnMoves | internal/games/poker/betting.go:254-275 | Returning the uncalled bet moves chips from one contribution back to that seat's stack and nothing else. |
| PokerShowdown.ShowdownAccount | internal/games/poker/betting.go:340-394 | After a showdown the stacks hold all chips of the hand except those above every live contribution once the uncalled bet went back; contributions are cleared and no stack shrinks. |
| PokerShowdown.StrandedIff | internal/games/poker/betting.go:254-325 | Nothing is stranded if and only if there are not two folded seats that both put in more than every live seat. |
| PokerWinners.AwardPotPayout | internal/games/poker/betting.go:362-410 | One pot pays a seat between nothing and its amount, and nothing if it does not list the seat. |
| PokerWinners.AwardPotSole | internal/games/poker/betting.go:362-410 | The only seat of maximal strength takes the whole pot. |
| PokerWinners.PayoutIsMatched | internal/games/poker/betting.go:340-394 | A live seat is never reported to win more than its contribution matches, and a sole best hand wins exactly that. |
| PokerWinners.FoldedWinsNothing | internal/games/poker/betting.go:340-394 | A folded seat wins nothing at a showdown. |
| PokerRules.NextActorFound | internal/games/poker/betting.go:62-91 | The circular scan finds a seat exactly when some seat can still act, and the seat it finds can. |
| PokerShares.AwardPotShares | internal/games/poker/betting.go:362-410 | Each of the n unbeaten hands a pot lists gets an n-th of it, one chip more exactly for the lowest of their seats as far as the remainder goes; everybody else gets nothing. |
| PokerShares.ShowdownShares | internal/games/poker/betting.go:340-410 | After a showdown every stack is what it was after the uncalled bet went back plus the seat's shares of all pots, hands being compared by their own cards with the board; the reported payouts say the same. |
| PokerShares.ValuesAreStrengths | internal/games/poker/betting.go:347-358 | Exactly the live seats show a hand, each of its hole cards and the board. |
| PokerShares.UncalledIsReturned | internal/games/poker/betting.go:254-275 | Only a contribution above all others shrinks, to the highest of those, and the rest of it is back in its stack. |
| PokerLaws.ActionActs | internal/games/poker/engine.go:278-347 | Each accepted action moves chips forward from one seat's stack to its contribution, or answers without chips, and leaves everybody else's chips alone. |
| PokerLaws.ActedProgress | internal/games/poker/engine.go:278-367 | After an action the stacks hold fewer chips, or as many and one player fewer is waiting to act. |
| PokerLaws.UncontestedOver | internal/games/poker/betting.go:224-240 | When all others folded, the last live seat gets every chip of the hand and the hand is over. |
| PokerLaws.RunOutOver | internal/games/poker/betting.go:197-214 | Dealing out the board never runs out of cards and ends the hand, losing exactly the stranded chips. |
| PokerLaws.AdvanceKeeps | internal/games/poker/betting.go:155-193 | Moving to the next street keeps the hand invariant, finds an actor, or ends the hand with the exact account. |
| PokerLaws.StepKeeps | internal/games/poker/engine.go:228-266 | Every accepted action comes from the seat to act, leaves a hand in progress or a finished one, is strictly closer to the end, and changes the chips by exactly the stated loss. |
| PokerLaws.LostIff | internal/games/poker/betting.go:280-325 | An action loses chips if and only if it leads to a showdown with two folded seats above every live one. |
| PokerHands.DealKeeps | internal/games/poker/engine.go:154-225 | From any table at rest a hand starts in progress or is played out at once, with all chips kept, unless fewer than two players have chips. |
| PokerHands.FirstHandKeeps | internal/games/poker/engine.go:63-99 | The first hand starts with exactly the chips the lobby handed out. |
| PokerHands.NextHandKeeps | internal/games/poker/engine.go:102-121 | From any finished hand the next one starts with exactly the same chips. |
| PokerHands.HandEnds | internal/games/poker/engine.go:228-266 | Over every run of a hand the chips are constant while it is in progress, at its end they differ by exactly what the last action lost, and no run is longer than a bound computed from its first state. |
| PokerHands.SomebodyCanMove | internal/games/poker/engine.go:228-281 | While a hand is in progress the seat to act exists and its fold is accepted. |
| PokerHands.LegalActionsExact | internal/games/poker/view.go:148-176 | For a seat that can act, check, bet to x and raise to x are accepted exactly when advertised with x within the bounds; an advertised call moves exactly the advertised chips. |
| PokerHands.LegalIsAccepted | internal/games/poker/view.go:148-176 | The same through the whole engine, in every state of a hand in progress. |
| PokerTurns.ActionDoes | internal/games/poker/engine.go:278-347 | An action is accepted exactly within its limits (an all-in may stay below them), moves exactly its chips, sets the bet and the next least raise, and a bet or raise must be answered by everybody else who can act. |
| PokerTurns.TurnPasses | internal/games/poker/betting.go:71-91 | After an action the next seat clockwise that has to act is to act; exactly when there is none, a new street opens, with three cards on the board and then one more each time, in which everybody who can act has to, the first after the button first. |
| PokerTurns.LastOneTakesAll | internal/games/poker/betting.go:224-240 | When one player is left, that player gets everything that was put in, nobody else anything. |
| PokerTurns.CardsDecide | internal/games/poker/betting.go:155-214 | An action that ends the betting leads to a showdown with five cards on the board, paid out by the shares. |
| PokerTurns.DealtTurns | internal/games/poker/engine.go:154-225 | With two players the button posts the small blind and acts first; with more the next seats clockwise post the blinds and the one after them acts first; everybody else has put in nothing, and a short stack posts what it has. |
| PokerTurns.FirstHandStarts | internal/games/poker/engine.go:63-99 | In a first hand everybody has the chips of the lobby less the blind, 5 and 10; the button is with the lowest seat that has chips, and blinds and turn follow from it. |
| PokerTurns.NextHandStarts | internal/games/poker/engine.go:102-121 | In a next hand the button is one seat with chips further, everybody has the stack of the last hand less the blind, and blinds and turn follow. |
| PokerTurns.CircleIsChips | internal/games/poker/engine.go:155-170 | Dealt in is exactly who has chips. |
| PokerTurns.ButtonMoves | internal/games/poker/engine.go:125-151 | For the next hand the button goes to the next seat clockwise that has chips. |
| PokerTurns.ButtonStartsLowest | internal/games/poker/engine.go:74-88 | For the first hand it is with the lowest seat. |
| PokerDeals.CardsOfTheHand | internal/games/poker/engine.go:171-201 | In every state of a hand: the k-th seat clockwise from the small blind holds the k-th card of each of two rounds, nobody else holds any, the board is the next cards of the deck, and every card is as often on the table as in the deck. |
| PokerDeals.FirstHandCards | internal/games/poker/engine.go:63-99 | The same for every hand that starts from a lobby. |
| PokerDeals.NextHandCards | internal/games/poker/engine.go:102-121 | The same for every hand after a finished one. |
| PokerDeals.StepCards | internal/games/poker/betting.go:155-214 | No action moves a hole card; board and deck together stay the same cards in the same order. |
| PokerDeals.RunOutShows | internal/games/poker/betting.go:197-214 | Playing a hand out is a showdown with the missing cards dealt from the top. |
| PokerFolds.StepSquare | internal/games/poker/engine.go:278-347 | Every accepted action keeps: nobody put in more in earlier rounds than those who can still bet, and somebody in the hand stands behind the whole bet and acts last if at all. |
| PokerFolds.FirstHandSquare | internal/games/poker/engine.go:154-225 | Every first hand in progress starts that way. |
| PokerFolds.NextHandSquare | internal/games/poker/engine.go:102-121 | So does every next hand, with the blinds of the one before. |
| PokerFolds.OthersLoseNothing | internal/games/poker/betting.go:280-325 | No action but a fold loses a chip in such a hand. |
| PokerFolds.LostExactly | internal/games/poker/betting.go:280-325 | Told from the table before the call: an action loses chips if and only if it is a fold, nobody else is left to act, at least two others stay in, no betting can follow, and two seats that are then out put in more than everybody left. |
| PokerFolds.OnlyFoldsLose | internal/games/poker/engine.go:228-266 | Over every run of a dealt hand the chips at the end are at most those at the start, and fewer if and only if the last action is such a fold. |
| PokerCases.ChipsCanVanish | internal/games/poker/engine.go:281-285 | For every deck and every hand evaluation, six accepted moves from a new table of four players end a hand with fewer chips than it started with. |
| PokerEngine.TableState.FindNextActor | internal/games/poker/betting.go:71-91 | The loop over the sorted seats returns the next actionable seat clockwise. |
| PokerEngine.TableState.RefundUncalled | internal/games/poker/betting.go:254-275 | Sorting the positive contributions and comparing the top two returns exactly the uncalled part. |
| PokerEngine.TableState.DistributePot | internal/games/poker/betting.go:398-410 | The loop over sorted winners pays shares and odd chips as specified, that is, as `PokerShares.AwardPotShares` says. |
| PokerEngine.TableState.BestHands | internal/games/poker/betting.go:366-382 | The running maximum over eligible seats collects exactly the seats of maximal strength. |
| PokerEngine.TableState.Showdown | internal/games/poker/betting.go:340-394 | The whole showdown leaves the specified table. |
| PokerEngine.TableState.EndHandUncontested | internal/games/poker/betting.go:224-240 | The whole pot goes to the given seat and the hand is over, as specified. |
| PokerEngine.TableState.RunOutAndShowdown | internal/games/poker/betting.go:197-214 | The loop to the river and the showdown leave the specified table. |
| PokerEngine.TableState.Advance | internal/games/poker/betting.go:155-193 | The street change leaves the specified table. |
| PokerEngine.TableState.Act | internal/games/poker/engine.go:278-347 | Every action, with its refusals, is the specified one. |
| PokerEngine.TableState.Deal | internal/games/poker/engine.go:154-225 | Clearing, dealing in two rounds, blinds and first actor leave the specified table; the cards of which are those of `PokerDeals.CardsOfTheHand`, the turns those of `PokerTurns.DealtTurns`. |
| PokerEngine.Apply | internal/games/poker/engine.go:228-266 | One action on a stored table equals the specification, errors included. |
| PokerEngine.InitState | internal/games/poker/engine.go:63-99 | The first hand equals the specification. |
| PokerEngine.NextHand | internal/games/poker/engine.go:102-121 | The next hand, with its button, equals the specification. |
| SongStart.InitKeeps | internal/games/song_guess/engine.go:64-160 | A new game on a valid pack satisfies the invariant. |
| SongLaws.StepKeeps | internal/games/song_guess/engine.go:257-345 | Every accepted action keeps the invariant: unique captains and judge, coherent phase, pending decision and sub-state, sound cells, scores equal to the history, alternating turns. |
| SongLaws.FinishKeeps | internal/games/song_guess/play.go:212-250 | The single place that ends a song keeps scores equal to awarded points, with points equal to the blocks still closed and between 1 and the bucket. |
| SongLaws.JudgedKeeps | internal/games/song_guess/judge.go:94-184 | All four branches of a judge's decision keep the invariant; which points they give to whom, `SongAnswers.AnswersPay`. |
| SongLaws.ResignKeeps | internal/games/song_guess/scoring.go:40-105 | Leaving keeps the invariant in every phase: captaincy and host pass on, a vacant judgeship parks the phase, too few players end the game. |
| SongLaws.AssignJudgeKeeps | internal/games/song_guess/roster.go:147-193 | Filling the judgeship in the roster or in a vacancy keeps the invariant and restores the interrupted phase. |
| SongLaws.BeginKeeps | internal/games/song_guess/roster.go:279-344 | A successful begin leaves a manned game: captains, host and judge present. |
| SongAnswers.AnswersPay | internal/games/song_guess/judge.go:94-184 | From a guess or steal to its decision, whoever leaves or becomes the judge in between: a right answer gives exactly the asked team one point for each block still closed and records that, a wrong guess of the active team asks the opponents, a wrong last chance ends the song for nobody, and a wrong steal opens the block on offer and ends stealing. |
| SongAnswers.ClaimWaits | internal/games/song_guess/play.go:287-396 | A guess or steal only waits: for the team that was asked, worth the blocks still closed. |
| SongAnswers.StillWaits | internal/games/song_guess/scoring.go:40-105 | While it waits nothing about it changes. |
| SongSteps.OnlyRightAnswersScore | internal/games/song_guess/judge.go:79-92 | No action but a decision for the answer changes a score or records an award. |
| SongSteps.RightOne | internal/games/song_guess/engine.go:257-345 | Every accepted action comes from the one it belongs to: the asked team's captain, the judge, the host, or the one who leaves. |
| SongSteps.OpenDoes | internal/games/song_guess/play.go:118-204 | A requested block is offered while steals are allowed and something is open, and opens otherwise; the last block ends the song for nobody. |
| SongSteps.PassDoes | internal/games/song_guess/play.go:400-441 | Passing opens the offered block, steals staying allowed, or gives up the last chance. |
| SongSteps.SkipDoes | internal/games/song_guess/play.go:454-484 | Skipping ends the song for nobody and records it as skipped. |
| SongSteps.SelectDoes | internal/games/song_guess/round.go:38-99 | The song is an unplayed one of the chosen cell, all blocks closed; it leaves its cell and no other cell changes. |
| SongSteps.NextDoes | internal/games/song_guess/round.go:119-153 | The other team is up, or the game is over exactly when no song is left. |
| SongSteps.BeginDoes | internal/games/song_guess/roster.go:279-344 | Play starts with the requested team, the first one by default. |
| SongSteps.ResignDoes | internal/games/song_guess/scoring.go:40-105 | One leaves and keeps his team; his captaincy goes to the lowest seat left in it, and nobody else changes. The game is over exactly when a team is empty or fewer than three stay; otherwise the phase goes on, or waits for a judge; the host's rights pass to the lowest seat. |
| SongSteps.VacancyFilled | internal/games/song_guess/roster.go:175-198 | With a new judge the interrupted phase goes on with its song, decision and scores. |
| SongSteps.AssignTeamDoes | internal/games/song_guess/roster.go:83-111 | The seat has the team, keeps a captaincy only within its team, and nobody else changes. |
| SongSteps.AssignCaptainDoes | internal/games/song_guess/roster.go:114-144 | The seat is its team's captain; teams stay. |
| SongSteps.AssignJudgeDoes | internal/games/song_guess/roster.go:161-172 | The seat is the judge without a team; the other teams stay. |
| SongSteps.SetTeamNameDoes | internal/games/song_guess/roster.go:250-277 | One team is renamed, within the length allowed. |
| SongStart.NewRoles | internal/games/song_guess/engine.go:108-160 | In a new game seat 0 judges, the other even seats play for team A and the odd ones for team B, each led by its lowest seat. |
| SongRoster.ReassignedKeeps | internal/games/song_guess/roster.go:220-240 | The judgeship moves alone; the team the new judge leaves gets a captain if it needs one; nobody holds two roles. |
| SongRoster.PromotedKeeps | internal/games/song_guess/roster.go:72-80 | Promotion gives a team without a captain exactly one, if anybody is left in it. |
| SongRoster.LeftKeeps | internal/games/song_guess/scoring.go:40-75 | A participant who leaves loses his roles and his team keeps a unique captain while it has members. |
| SongLedger.RoundsShared | internal/games/song_guess/round.go:119-153 | If consecutive rounds alternate, an even history splits evenly and an odd one favours the team that went last. |
| SongWhole.StepConserves | internal/games/song_guess/round.go:50-89 | Every accepted action keeps, for every song and in total, the number of places it is in: unplayed pool, in flight, history. |
| SongWhole.EverySongOnce | internal/games/song_guess/engine.go:169-187 | When the counts are those of the initial table, each pack song is in exactly one place, and no other song anywhere. |
| SongWhole.ExhaustionIsFair | internal/games/song_guess/scoring.go:172-188 | A game that ended with nothing left to play gave both teams half of an even pack. |
| SongProgress.StepForward | internal/games/song_guess/engine.go:257-345 | Every accepted action but void strictly decreases (active people, unplayed songs, phase, closed blocks, sub-state, vacancy). |
| SongRuns.GamesAreSound | internal/games/song_guess/engine.go:257-277 | In every state of every game the invariant holds and each song is in exactly one place. |
| SongRuns.ExhaustedGamesAreFair | internal/games/song_guess/scoring.go:172-188 | Over whole games: played to the last song of an even pack, both teams had the same number of rounds. |
| SongRuns.FinalStandings | internal/games/song_guess/scoring.go:195-236 | A player's total is what the team was awarded over the history; rank 1 exactly when no team is ahead. |
| SongRuns.GameEnds | internal/games/song_guess/engine.go:257-345 | A run without void from a begun game is no longer than a bound computed from its first state. |
| SongLegal.LegalIsExact | internal/games/song_guess/legal.go:24-222 | Once begun, an action is listed for an active participant exactly when some payload makes the engine accept it, whatever is drawn. |
| SongLegal.SomebodyGoesOn | internal/games/song_guess/legal.go:73-186 | In every state of a game under way some active participant has an acceptable action that is neither leaving nor void. |
| SongLegal.PlaysOut | internal/games/song_guess/engine.go:257-345 | Every game under way can be played to its end without anybody leaving. |
| SongLegal.VoidUndoesClaim | internal/games/song_guess/judge.go:192-212 | Voiding a decision restores exactly the state before the guess or steal. |
| SongLegal.StealWindowOpensItsBlock | internal/games/song_guess/play.go:118-204 | The block on offer in a steal window is the one that opens, whether the opponents pass or are judged wrong; only the latter locks them out. |
| SongEngine.GameState.Select | internal/games/song_guess/round.go:38-99 | Drawing a song by swap-removal and installing it is the specified action. |
| SongEngine.GameState.Next | internal/games/song_guess/round.go:119-153 | The next round, or the end of the game, is the specified one. |
| SongEngine.GameState.Finish | internal/games/song_guess/play.go:212-250 | Appending the outcome and adding the points is the specified end of a song. |
| SongEngine.GameState.Open | internal/games/song_guess/play.go:118-164 | Opening a block, or offering it in a steal window, is the specified action. |
| SongEngine.GameState.Judge | internal/games/song_guess/judge.go:94-184 | The judge's decision is the specified one in all branches, and so pays as `SongAnswers.AnswersPay` says. |
| SongEngine.GameState.ReassignJudge | internal/games/song_guess/roster.go:220-240 | The loop that clears the judge and installs another is the specified reassignment. |
| SongEngine.GameState.ResignUser | internal/games/song_guess/scoring.go:40-105 | Leaving is the specified action. |
| SongEngine.GameState.Finalize | internal/games/song_guess/scoring.go:172-222 | Ending the game writes the specified results. |
| SongEngine.Apply | internal/games/song_guess/engine.go:257-277 | One action on a stored game equals the specification, errors included. |
| SongEngine.FlattenPack | internal/games/song_guess/engine.go:169-187 | The loop over languages and buckets builds the specified table of cells. |
| SongEngine.InitState | internal/games/song_guess/engine.go:64-102 | A new game equals the specification. |
| SongPackCache.PackCache.GetAll | internal/games/song_guess/packcache.go:116-192 | Requests one after another: each is answered with the parse of its document or fails for want of one, and a cache that held the `capacity` most recent distinct keys of the requests served so far, as an empty one does, still does, most recent first. |
| SongPackCache.CacheIsMostRecent | internal/games/song_guess/packcache.go:145-192 | Moving to the front and evicting at the end, repeated from an empty list, leaves the `capacity` most recent distinct keys. |
| SongPackCache.RecentKeys | internal/games/song_guess/packcache.go:145-180 | The reference order lists every requested key exactly once. |
| SongPackCache.RecentByLastUse | internal/games/song_guess/packcache.go:145-180 | The reference order is by the time of the latest request. |
| SongPackCache.InterleavedStaysBounded | internal/games/song_guess/packcache.go:116-192 | Under any interleaving of lookup and insert steps keys stay distinct and within capacity, and no key appears that was not inserted. |
| SongPackCache.PackCache.Lookup | internal/games/song_guess/packcache.go:145-156 | Hits exactly on held keys, moves a hit to the front, returns the parse of that key's document, keeps map and list in bijection. |
| SongPackCache.PackCache.Insert | internal/games/song_guess/packcache.go:163-180 | The key becomes the most recent one, the oldest goes if the capacity is exceeded, an entry already there is kept. |
| SongPackCache.PackCache.EvictOldestLocked | internal/games/song_guess/packcache.go:184-192 | The last list element and its map entry go together. |
| SongPackCache.PackCache.Get | internal/games/song_guess/packcache.go:116-141 | A successful request returns the parse of the loader's document and makes the key the most recent; a failed one changes nothing. |
| TtrTrail.BuildTrailGraph | internal/games/ttr/scoring.go:212-226 | The edges are the player's known routes in order, and the adjacency lists exactly the edges at each city. |
| TtrTrail.TrailDFS.Search | internal/games/ttr/scoring.go:254-304 | From a city and a used set, the search, memoised or not, returns the heaviest walk over unused edges, which is what the plain search returns, terminates, and restores the used set. |
| TtrTrail.PlainSearchIsBest | internal/games/ttr/scoring.go:228-304 | A recursive search without a memo returns the one heaviest value of a search state; memoised or not, `Search` ensures that its result is the same. |
| TtrTrail.KeyInjectiveIff | internal/games/ttr/scoring.go:262-272 | The 64-bit key identifies the used set if and only if there are at most 64 edges. |
| TtrTrail.LongestTrail | internal/games/ttr/scoring.go:185-208 | Some edge-distinct walk through the claimed routes has the returned length and none is longer. |
| TtrUnionFind.UnionFind.Find | internal/games/ttr/scoring.go:460-469 | Path compression returns the representative and changes no class; the recursion terminates. |
| TtrUnionFind.UnionFind.Union | internal/games/ttr/scoring.go:472-477 | A union is exactly one more link in the graph whose reachability the structure decides. |
| TtrUnionFind.UnionFind.Connected | internal/games/ttr/scoring.go:480-482 | True exactly when a path of links joins the two cities. |
| TtrUnionFind.MergeDecides | internal/games/ttr/scoring.go:472-477 | Merging two classes turns a decision procedure for a graph into one for the graph with one more edge. |
| TtrStations.StationOptionSets | internal/games/ttr/scoring.go:372-389 | Each station city gets "borrow nothing" first and then, by ascending route id, exactly the incident routes owned by somebody else. |
| TtrStations.EvaluateAssignment | internal/games/ttr/scoring.go:406-441 | Net, completed and missed tickets are those of reachability over owned and borrowed routes. |
| TtrStations.AssignmentSearch.Recurse | internal/games/ttr/scoring.go:337-357 | The exhaustive recursion restores its prefix and tops every completion of it. |
| TtrStations.BestStationAssignment | internal/games/ttr/scoring.go:330-361 | The outcome is that of some choice of one option per station, and no choice has a higher net score. |
| TtrScoring.SumRoutePoints | internal/games/ttr/scoring.go:121-135 | The points of the claimed routes, or failure exactly when a route is unknown. |
| TtrScoring.SplitIsNet | internal/games/ttr/scoring.go:90-92 | Completed points minus missed points is the optimiser's net score. |
| TtrScoring.BuildBreakdown | internal/games/ttr/scoring.go:85-114 | A breakdown is complete: route points, a best use of the stations, station bonus, longest-path bonus exactly for the maximum, and a total that is their sum. |
| TtrScoring.LongestTrails | internal/games/ttr/scoring.go:64-78 | The longest trail of every active player, and their maximum attained by one of them. |
| TtrScoring.AssignRanks | internal/games/ttr/scoring.go:520-542 | Written in place: each rank is one plus the number of players strictly ahead, a victory is shared exactly when two or more are first, other entries stay. |
| TtrScoring.FinalScore | internal/games/ttr/scoring.go:37-57 | Fails exactly on an unknown route; otherwise every active player has a complete breakdown and his rank among all, and resigned players score nothing and rank last. |
| TtrScoring.BooksAreKnown | internal/games/ttr/turnflow.go:219-233 | With the board ledger in order the final scoring cannot fail. |
| TtrScoring.RoutePointsAgree | internal/games/ttr/scoring.go:116-120 | The recomputed route points equal the running route score. |
| TtrScoring.FinalOrder | internal/games/ttr/scoring.go:546-569 | In the final results one player ranks before another exactly with more points, else more completed tickets, else fewer stations, else alone the longest path; they share a rank exactly when none of these decides. |
| TtrRanking.PositionIsRank | internal/games/ttr/scoring.go:523-529 | In sorted order an entry that does not tie with its predecessor has exactly the entries before it ahead. |
| TtrRanking.SortKeeps | internal/games/ttr/scoring.go:521 | Sorting by the tie-break order keeps the entries and how many are ahead of each. |
| TtrRanking.RanksFollowOrder | internal/games/ttr/scoring.go:546-569 | Ahead in the tie-break order means a better rank, and exactly the ties share one. |
| TtrRanking.SomebodyFirst | internal/games/ttr/scoring.go:520-542 | Among any active players somebody ranks first. |
| TtrPayment.PaymentToColors | internal/games/ttr/actions.go:87-100 | Accepts exactly the well-formed payments. |
| TtrPayment.ValidatePayment | internal/games/ttr/claim.go:106-155 | Accepts exactly the legal payments for a route and hand, and names the colour they declare. |
| TtrPayment.BestIsFrugal | internal/games/ttr/legal.go:167-214 | No legal payment of the same base colour spends fewer locomotives than the enumerated one. |
| TtrPayment.PaymentOptions | internal/games/ttr/legal.go:167-214 | Every option is a legal payment, every legal payment is served by an option of its base colour with no more locomotives, and no option appears twice. |
| TtrCards.TakenKeeps | internal/games/ttr/draw.go:136-146 | Taking a face-up card takes exactly that card off the table, through refills and flushes. |
| TtrCards.FlushedKeeps | internal/games/ttr/engine.go:227-242 | Redealing rows with too many locomotives keeps every colour's count on the table. |
| TtrCards.TakenRow | internal/games/ttr/draw.go:136-146 | Afterwards the row is full or holds every card left, and it has three locomotives if and only if all 25 redeals do, or the first redeal that comes out short does. |
| TtrCards.ThreeStayIff | internal/games/ttr/engine.go:227-242 | The same for the flush alone, from any row and for any number of redeals; the two reasons exclude each other. |
| TtrCards.TakenRowForeseen | internal/games/ttr/draw.go:136-146 | Told from the counts before the call: fewer than three locomotives left on the table, never three in the row; at least five cards left and at most two of them no locomotives, always; at most five cards left, all the locomotives there are. |
| TtrCards.ThreeStay | internal/games/ttr/engine.go:227-242 | A table on which the row keeps three locomotives, whatever the shuffle. |
| TtrSetup.DeckSuffices | internal/games/ttr/engine.go:163-188 | The 110-card deck is always enough for the first hands of a valid map's players. |
| TtrSetup.InitKeeps | internal/games/ttr/engine.go:70-150 | A new game satisfies all invariants and the table and hands hold the 110-card deck, colour by colour. |
| TtrDeals.NewGameDeals | internal/games/ttr/engine.go:70-188 | In a new game player i holds the i-th card of each of four rounds, is offered one long and three regular tickets, and has all trains and stations; the other tickets are the deck. |
| TtrDeals.NewGameRow | internal/games/ttr/engine.go:196-205 | The row is the next five cards unless three of them are locomotives. |
| TtrActions.DrawDoes | internal/games/ttr/draw.go:41-70 | A draw adds exactly the card of its source to the hand; it completes the turn if and only if it was the second or took a face-up locomotive (a blind one counts as any card), and otherwise waits for the second. |
| TtrActions.DrawRefusedIff | internal/games/ttr/draw.go:84-107 | On the player's turn a draw is refused exactly when its source has no card or the second card would be a face-up locomotive. |
| TtrActions.BlindDrawPiles | internal/games/ttr/draw.go:163-173 | The card of a blind draw is the next of the draw pile, then of the discard pile as shuffled; the row stays. |
| TtrActions.SlotIsReplaced | internal/games/ttr/draw.go:136-146 | The next hidden card lies in the slot that was taken, unless three locomotives have the row dealt anew. |
| TtrActions.EndDrawDoes | internal/games/ttr/draw.go:110-134 | The second card may be declined only when nothing but face-up locomotives is left to draw. |
| TtrActions.ResignDoes | internal/games/ttr/turnflow.go:122-206 | Who leaves keeps the board and no cards; somebody else's turn goes on as it was, the leaver's own is over with nothing parked and an armed counter counted down; with fewer than two players the game is over. |
| TtrTunnels.ClaimDoes | internal/games/ttr/claim.go:42-70 | An accepted claim costs the route's length in cards and trains and gives its points. A tunnel turns the next three hidden cards: its surcharge is the number of them that are locomotives or of a colour in the payment; the claim waits if and only if there is such a card, and otherwise the route is owned and the turn over. |
| TtrTunnels.RevealsNext | internal/games/ttr/claim.go:268-276 | The revealed cards are the next hidden ones, as far as there are any. |
| TtrTunnels.MatchesCount | internal/games/ttr/claim.go:277-282 | The matches are the revealed places whose card is a locomotive or of the payment's colour. |
| TtrTunnels.DecisionDoes | internal/games/ttr/claim.go:366-463 | Exactly who accepts with the surcharge, from the hand, in the claim's colour and locomotives has the route for it; otherwise the claim's payment comes back. The turn is over either way. |
| TtrTunnels.ClaimAcceptedIff | internal/games/ttr/claim.go:42-155 | In terms of the books: accepted exactly from the player to move for a route nobody has, with trains enough, whose double he has not and, with two or three players, nobody has, and a legal payment. |
| TtrTickets.StationDoes | internal/games/ttr/station.go:26-66 | The k-th station costs k cards of one colour and locomotives, stands in its city, and ends the turn. |
| TtrTickets.StationAcceptedIff | internal/games/ttr/station.go:26-66 | Accepted exactly from the player to move, with a station left, for a city of the map without a station, at that price. |
| TtrTickets.DrawTicketsDoes | internal/games/ttr/tickets.go:25-44 | Up to three tickets from the top of the deck are set aside. |
| TtrTickets.KeepDoes | internal/games/ttr/tickets.go:52-95 | At least one offered ticket, each once, stays with the player; the others go under the deck in their order. |
| TtrTickets.SetupDoes | internal/games/ttr/engine.go:633-687 | At setup at least two offered tickets stay; after the last answer play starts with the first player. |
| TtrFlow.StepFlow | internal/games/ttr/engine.go:352-378 | Every accepted action keeps: exactly the phase's decision is parked, at least two players are left, the one to move is active, the final counter is -1 or between 1 and their number. |
| TtrFlow.ResignFlow | internal/games/ttr/turnflow.go:122-176 | The same for a resignation, at any moment. |
| TtrCustody.StepKeepsCards | internal/games/ttr/engine.go:508-525 | Every accepted action keeps, per colour, the cards over draw pile, discard pile, face-up row, hands and a parked tunnel. |
| TtrCustody.TunnelCards | internal/games/ttr/claim.go:366-463 | Accepting or declining a tunnel moves the base payment, the reveals and the surcharge without losing a card. |
| TtrCustody.ResignCards | internal/games/ttr/turnflow.go:122-206 | A resignation moves the hand and a parked tunnel's cards to the discard pile and loses none. |
| TtrCustody.StepKeepsTickets | internal/games/ttr/tickets.go:25-95 | After setup no ticket enters or leaves the game, whoever resigns. |
| TtrCustody.SetupStepCustody | internal/games/ttr/engine.go:633-687 | During setup tickets only ever leave the game (the rejected ones). |
| TtrCustody.StepTicketOnce | internal/games/ttr/tickets.go:25-95 | No action puts a ticket in two places. |
| TtrSurcharge.FirstFaultDecides | internal/games/ttr/claim.go:399-415 | Visiting the offered colours in a given order, the first fault decides; without one the total does. |
| TtrSurcharge.OrderGivesVerdict | internal/games/ttr/claim.go:399-415 | Every order of visiting gives one of the two verdicts of the specification. |
| TtrSurcharge.VerdictHasOrder | internal/games/ttr/claim.go:399-415 | Each of the two is that of some order. |
| TtrSurcharge.DecisionOrderIff | internal/games/ttr/claim.go:366-389 | The order does not matter for an accepted tunnel if and only if the payment is not well formed, or names no colour that is not allowed, or asks no more of a legal colour than the hand holds. |
| TtrSurcharge.OrderMattersIff | internal/games/ttr/engine.go:352-378 | Over all actions, users and games, outcomes differ exactly in that case: so every other action is a function of state and input. |
| TtrSurcharge.AcceptForfeitsIff | internal/games/ttr/claim.go:366-389 | Accepting forfeits the claim if and only if the payment is well formed, exceeds the hand in a legal colour, and no other fault is met first; the outcome is then that of declining. |
| TtrSurcharge.WrongIsRefusedIff | internal/games/ttr/claim.go:391-415 | A payment of the wrong colours or the wrong total is refused in every order if and only if it is not well formed or exceeds the hand in no legal colour. |
| TtrSurcharge.CanPayIff | internal/games/ttr/claim.go:391-415 | Some payment fits exactly when the declared colour and the locomotives in hand reach the surcharge. |
| TtrSurcharge.OverOfferForfeits | internal/games/ttr/claim.go:366-389 | Offering more of the declared colour than the hand holds forfeits the claim, whatever else the hand holds. |
| TtrCases.BothOutcomes | internal/games/ttr/claim.go:366-415 | With both faults, one order refuses the action and the other accepts it and forfeits the claim. |
| TtrCases.SameAnswerTwoOutcomes | internal/games/ttr/claim.go:366-415 | A game played from its beginning in which that happens. |
| TtrCases.AbleButForfeits | internal/games/ttr/claim.go:366-389 | A game played from its beginning in which a hand that can pay the surcharge forfeits the claim by offering too much, in every order. |
| TtrOptions.RoutePayableIff | internal/games/ttr/claim.go:106-155 | Some payment for a route is legal exactly when the hand covers it: locomotives for the ferry, and one allowed colour with the other locomotives for the rest. |
| TtrOptions.PricePayableIff | internal/games/ttr/station.go:26-66 | A price in one colour can be paid exactly when some colour and the locomotives together reach it. |
| TtrOptions.TurnOpenIff | internal/games/ttr/engine.go:430-474 | The player whose turn starts has an accepted action other than resigning if and only if a card can be drawn, the ticket deck is not empty, a claimable route is covered by the hand, or a station can be paid and placed. |
| TtrOptions.SecondDrawHasAnswer | internal/games/ttr/draw.go:41-107 | A player who owes a second card can draw one or end the turn. |
| TtrOptions.ParkedHasAnswer | internal/games/ttr/engine.go:430-474 | A parked tunnel and a parked ticket offer have an accepted answer. |
| TtrOptions.SetupHasAnswer | internal/games/ttr/engine.go:633-687 | So has the setup offer of everybody who has not answered. |
| TtrOptions.SomebodyCanIff | internal/games/ttr/engine.go:430-474 | In every sound game somebody can do something other than resign if and only if setup waits for somebody, a decision is parked, or the turn is open in the sense of TurnOpenIff. |
| TtrLedger.StepKeepsLedger | internal/games/ttr/claim.go:207-253 | Every accepted action keeps: trains plus claimed lengths constant, route score equal to the recomputed one, owners and lists one to one, nobody owns both siblings, closed routes exactly the unowned siblings of double routes in 2-3 player games, and a parked tunnel route claimable. |
| TtrLedger.ClaimKeepsLedger | internal/games/ttr/claim.go:207-253 | Claiming a claimable route keeps the ledger, whatever was paid. |
| TtrLedger.StationLedger | internal/games/ttr/station.go:26-66 | Building a station keeps the ledger. |
| TtrFinalRound.StepMoves | internal/games/ttr/turnflow.go:36-97 | After setup every action but a resignation either leaves turn and counter alone or completes the turn: counter armed or counted down, next active seat to move or game over, nothing parked. |
| TtrFinalRound.FinalRound | internal/games/ttr/turnflow.go:36-97 | From arming, without resignations: the k-th further turn belongs to the k-th active seat after the triggering one, the game ends with the n-th and the triggering seat is last. |
| TtrFinalRound.ResignPassesToLowest | internal/games/ttr/turnflow.go:80-97 | A resignation in turn passes to the lowest active seat; that is the next clockwise seat if and only if the resigning seat is the lowest or highest active one. |
| TtrFinalRound.FinishedParkedIff | internal/games/ttr/turnflow.go:143-150 | A finished game keeps a parked decision if and only if it ended by a resignation of somebody other than the player it was parked for. |
| TtrFinalRound.StuckIff | internal/games/ttr/turnflow.go:122-176 | A resignation in setup gets the game stuck if and only if two players stay and the one who leaves was the last to have an answer to give. |
| TtrCases.SetupCanStick | internal/games/ttr/turnflow.go:122-176 | From every new game of three or more players a run of accepted actions gets it stuck in setup. |
| TtrCases.TurnCanSkip | internal/games/ttr/turnflow.go:80-97 | From every new game whose first player sits neither first nor last, that player's resignation skips the next seat. |
| TtrCases.CanEndParked | internal/games/ttr/turnflow.go:143-150 | From every new game of two players with tickets left, a run ends it with a parked offer. |
| TtrCases.AllThreeHappen | internal/games/ttr/engine.go:70-150 | On one board, from new games: all three happen. |
| TtrFinalRound.StuckRefuses | internal/games/ttr/engine.go:430-474 | In a stuck setup nothing but another resignation is accepted. |
| TtrFinalRound.AnswerNeverSticks | internal/games/ttr/engine.go:633-687 | A setup answer never gets the game stuck. |
| TtrRuns.GamesAreSound | internal/games/ttr/engine.go:352-378 | In every state of every game, resignations included: all 110 cards accounted for by colour, no ticket in two places, board ledger right, phase, turn and counter coherent. |
| TtrRuns.ArmingStartsFinalRound | internal/games/ttr/turnflow.go:36-60 | The turn that arms the counter is the start of a final round as described by FinalRound. |
| TtrRuns.CounterOnlyFalls | internal/games/ttr/turnflow.go:152-175 | Once armed the counter never rises, and a resignation never arms it. |
| TtrEngine.GameState.RefillDrawPile | internal/games/ttr/engine.go:210-219 | The discard pile is shuffled in exactly when the draw pile is empty. |
| TtrEngine.GameState.FillFaceUp | internal/games/ttr/engine.go:196-205 | The loop deals the row as specified. |
| TtrEngine.GameState.FlushFaceUpLocos | internal/games/ttr/engine.go:227-242 | The bounded flush loop leaves the specified piles. |
| TtrEngine.GameState.TakeFaceUp | internal/games/ttr/draw.go:136-146 | Replacement in place or removal of the slot, refill and flush as specified. |
| TtrEngine.GameState.Draw | internal/games/ttr/draw.go:41-107 | The two-card draw is the specified action, errors included; its locomotive rules are `TtrActions.DrawDoes` and `TtrActions.DrawRefusedIff`. |
| TtrEngine.GameState.DebitHand | internal/games/ttr/claim.go:164-175 | Visiting a payment's colours in any order leaves the specified hand. |
| TtrEngine.GameState.Claim | internal/games/ttr/claim.go:42-70 | A claim, with its refusals and the tunnel branch, is the specified action. |
| TtrEngine.GameState.RevealTunnel | internal/games/ttr/claim.go:268-282 | The reveal loop turns up to three cards and counts the matching ones; which those are, `TtrTunnels.MatchesCount`. |
| TtrEngine.GameState.StartTunnel | internal/games/ttr/claim.go:291-349 | Without a match the route is claimed at once, otherwise the decision is parked, as specified; when that is, `TtrTunnels.ClaimDoes`. |
| TtrEngine.GameState.CheckSurcharge | internal/games/ttr/claim.go:399-415 | The verdict is that of one order of visiting the colours. |
| TtrEngine.GameState.ResolveTunnel | internal/games/ttr/claim.go:366-463 | Accepting or declining a parked tunnel is the specified action. |
| TtrEngine.GameState.Build | internal/games/ttr/station.go:26-66 | Building a station is the specified action, errors included. |
| TtrEngine.GameState.OfferTickets | internal/games/ttr/tickets.go:25-44 | Drawing tickets parks exactly the specified offer. |
| TtrEngine.GameState.KeepTickets | internal/games/ttr/tickets.go:52-95 | Keeping some of the offered tickets is the specified action; the rest go under the deck in order. |
| TtrEngine.GameState.AnswerSetup | internal/games/ttr/engine.go:633-687 | A setup answer, and the start of play after the last one, is the specified action. |
| TtrEngine.GameState.NextActiveSeat | internal/games/ttr/turnflow.go:86-97 | The scan of the active seats returns the specified next seat. |
| TtrEngine.GameState.Finish | internal/games/ttr/turnflow.go:36-78 | Clearing the parked fields, counting and advancing leave the specified game. |
| TtrEngine.GameState.ReleaseDecision | internal/games/ttr/turnflow.go:188-206 | A parked decision's cards and tickets go back to their piles as specified. |
| TtrEngine.GameState.ResignPlayer | internal/games/ttr/turnflow.go:122-176 | A resignation is the specified action. |
| TtrEngine.Apply | internal/games/ttr/engine.go:352-378 | One action on a stored game equals the specification for some order of visiting a surcharge's colours, errors included. |
| TtrEngine.ClaimIff | internal/games/ttr/claim.go:42-155 | A claim is accepted exactly when the route exists, is claimable and the payment is legal. |
| TtrEngine.ClaimableRoutes | internal/games/ttr/legal.go:119-133 | Exactly the routes for which some payment makes the engine accept the claim, each with at least one option, all options accepted, and every payment that would be accepted served by one of the same colour with no more locomotives. |
| TtrEngine.DealInitialHands | internal/games/ttr/engine.go:180-188 | Four rounds of one card each deal the specified hands and leave the rest of the deck. |
| TtrEngine.InitState | internal/games/ttr/engine.go:70-123 | A new game equals the specification. |
| Lobby.SortedSeats | internal/games/ttr/engine.go:127-150 | Seats are taken in ascending seat order, each exactly once. |

## Left out

- HTTP and websocket handlers, sessions, SQL repositories and locking: one action is one atomic step on one stored state.
- Events: they do not influence the state.
- JSON payloads, protobuf encoding and UUIDs: the model starts from decoded states and typed payloads.
- Views: redaction and wire shapes are not modelled, only the advertised actions and bounds; of the legal moves of Ticket to Ride, only the claimable routes and payment options.
- 32-bit integers: all numbers are unbounded.
- Text: guesses and names are compared by length only where the program does so; trimming and Unicode width are not modelled.
- Document parsing: maps and packs are taken as valid (`Board.Valid`, `ValidPack`), with what the loaders check; media links and titles are not part of this model.
- Hand evaluation in poker: strength is an arbitrary function of the seven cards.
- Shuffle quality: shuffles and draws are arbitrary; nothing is said about probability.
- Seat limits of poker: the program leaves the maximum of nine to the lobby, and so do the laws about dealing, which assume it.
- PackCache.Get under concurrency: lookup and insert are atomic steps in any interleaving; the loader answers every request for a key alike, so failures that come and go are not modelled, and cancellation is not either.
- Library sorts, the library's list of active seats by index, and seat lookups are functions, not loops; the linked list of the cache is a sequence of elements.
- The scores of a finished Ticket to Ride game are computed by `TtrScoring.FinalScore` from the final state; the turn machine itself does not store them.
- SongRuns.GameEnds: games in which decisions are voided can go on for ever, so the bound is for runs without void.
- SongLegal.LegalIsExact: stated from the start of play; before that the roster actions depend on the host seat, which may be empty.
