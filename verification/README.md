# Mahjong room engine: a verified model

The room engine keeps one hand of Sichuan mahjong as a mutable record and moves it from phase to
phase: opening, claim window, tsumo window, discard. This project models that record and the
algorithms below it, and proves what holds over every hand that can be played.

- **The hand.** `Rounds` gives each operation as a function on the whole state; `RoundEngine` is
  the engine's mutable record, whose methods update single fields, loop and return early as the
  engine does, and are each proved equal to those functions. On the functions rest conservation of
  tiles (`RoundTiles`, `RoundRuns`), coherence of the phases (`RoundInv`, `RoundCoherence`),
  termination (`RoundProgress`), acceptance and refusal (`RoundRefusals`), what timeouts alone can do
  (`RoundTimeouts`), hand sizes (`RoundHands`, `RoundShares`), what each action does to hands, records,
  turn and payments (`RoundEffects` over `RoundDraws`, `RoundOffers`, `RoundOpening`, `RoundPay`,
  `RoundKongs` and `RoundFlow`; `RoundFans` for the value of a win, `RoundOrder` for who keeps the turn), and saving and restoring (`Persist`,
  `HandOrder`, `PersistRuns`, `MeldText`). `RoundPlay` plays whole hands on the mutable record;
  `RoundScenes` plays out single hands from walls that `Deals` constructs.
- **Hand shapes.** `HandForm`, `Ting`, `Shanten`, `PairDistance`, `Decomps` and `SichuanWin` prove the
  recursive searches against declarative meanings given with the blocks of `Blocks`.
- **Opening, scores and settlement.** `OpeningChoice`, `SichuanScore`, `Settlement`, and `PlayedHands` for
  hands that were really played.
- **The room actor.** `RoomActor` is a machine whose runs are all interleavings of submitters, timer
  callbacks and the mailbox loop.
- **Small services.** `RateLimit` and `LobbyPages`; `Walls` and `Tiles` are the wall, the hand and the
  tile codes.

All files verify together with `dafny verify dfyconfig.toml`, in a few minutes and with the tool's own
limits.

## Where the code differs from what one would expect

The model follows the code; each of these is stated and proved as it is.

- A kong that was robbed once, and whose last other claimant then passes, cannot be completed any
  more: the pass is refused after it has closed the window, and the hand never moves again
  (`RoundScenes.RobbedKongSticks`, `RoundRefusals.StuckForever`). This is the only way into such a
  hand (`RoundTimeouts.StuckOnlyByDeadPass`).
- A discard of a tile the seat does not hold, in the tsumo window, is refused but has by then moved the
  drawn tile into the hand and opened the discard phase (`RoundRefusals.RefusalEffect`,
  `RoundScenes.UnheldDiscardSticks`).
- A seat that has won is meant to be out. But when two seats may win on a discard and the one whose turn
  is next wins first, the turn stays with it; if the others then pass, the winner draws and has to
  discard (`RoundOrder.WinnerKeepsTurnIff`, `RoundOrder.WinnerDrawsAgain`).
- The fan for robbing a kong looks for an added kong on record for which another seat answers; added
  kongs are recorded without such a seat, so it is never paid (`RoundRuns.RobbedKongIsNeverPaid`).
- A seat that times out in the exchange counts as surrendered and is passed over by later timeouts, so
  timeouts alone never finish an opening with an exchange (`RoundTimeouts.TimeoutsFromTheDeal`).
- A decomposition that uses a triplet and a run of the same lowest kind is listed twice
  (`Decomps.ListedOnceIff`, `Decomps.ListsTwiceIff`, `Decomps.ListedTwice`).
- The test for a ready hand looks at concealed tiles only, so a seat with a meld is never ready and
  pays at the settlement (`Ting.TestAgreesIff`, `Ting.WaitsUnseen`).
- The distance in seven pairs asks for seven different kinds, while the winning test lets four of a kind
  stand for two pairs (`PairDistance.FourCountsOnce`, `PairDistance.FourIsTwoPairs`).
- The total reported for a seat at the settlement lacks the penalties of the seats after it
  (`Settlement.ReportedIsEarly`, `Settlement.ReportedCancelIff`, `PlayedHands.ReportedMayNotCancel`);
  the totals of a room count the score events only, never penalties.
- Joining again does not stop an offline timer; acting, getting ready, leaving and the reconnect notice
  do (`RoomActor.JoinChangesNothing`, `RoomActor.JoinDoesNotCancel`).
- A page token is trimmed, so when a page ends in a room whose id ends in a blank, the next page begins
  with a room already listed or the token is refused; with one room to a page the listing never ends
  (`LobbyPages.PagesCoverTheLobby`, `LobbyPages.BreakRepeats`, `LobbyPages.BlankLobbySticks`).

## Model

| member | source | states |
|---|---|---|
| `RoundRuns.TileConservation` | internal/service/room/engine/engine_claim.go:19-252 | From any order of the 108 tiles and for any sequence of actions, accepted or refused: each suited tile is counted four times over wall, hands, piles, flowers, melds, pending draw and the tiles named as lost, nothing else ever appears, and the state is coherent |
| `RoundTiles.StepTiles` | internal/service/room/engine/engine_discard.go:16-221 | One action keeps the number of every tile; only a self-drawn winning tile, the first robbing of a kong and a draw that is timed out on leave the table, one copy each |
| `RoundCoherence.StepKeepsInv` | internal/service/room/engine/phase.go:90-121 | Every action, accepted or refused, keeps: pending draw exactly in the tsumo phase, candidates exactly in a claim window, closed hands wait for nothing, winners distinct and fewer than three while open, candidates able to do what they are offered, score events transfers, four copies of a tile at most |
| `RoundCoherence.StepMovesOn` | internal/service/room/engine/phase.go:90-121 | Every accepted action but a walk-out closes the hand or leaves a seat to be asked, about the opening only while it lasts |
| `RoundRuns.StartIsInv` | internal/service/room/engine/engine.go:320-372 | Dealing from any full wall succeeds: the first 52 tiles are gone from it, thirteen are in each hand, and the invariant holds |
| `RoundRuns.RunKeepsInv` | internal/service/room/engine/engine_claim.go:19-252 | The invariant holds after any sequence of actions |
| `RoundProgress.StepDecreases` | internal/service/room/engine/engine_claim.go:478-498 | Opening slots left, wall, tiles held, phase and candidates weigh into one number that no action raises and every accepted action but a walk-out lowers |
| `RoundProgress.HandsAreFinite` | internal/service/room/engine/engine.go:320-372 | No hand accepts more than 2633 actions |
| `RoundRefusals.AcceptedIffAllowed` | internal/service/room/engine/engine_claim.go:19-136 | In a reachable state an action is accepted exactly when its guard holds; once a pong, kong, win, discard or timeout has passed its guard nothing further down can fail, and no win is refused for its value |
| `RoundRefusals.RefusalEffect` | internal/service/room/engine/engine_discard.go:38-48 | A refused action changes nothing, except that discarding an unheld tile in the tsumo phase has already put the drawn tile into the hand, and that the last pass on a robbed kong closes the window |
| `RoundRefusals.StuckForever` | internal/service/room/engine/engine_claim.go:276-286 | After that last pass the hand accepts nothing any more and never closes, whatever is tried |
| `RoundScenes.RobbedKongSticks` | internal/service/room/engine/engine_discard.go:174-176 | From a full wall and in eleven actions this happens: an added kong is robbed by seat 1, seat 2 passes, the pass is refused and the hand is stuck |
| `RoundScenes.UnheldDiscardSticks` | internal/service/room/engine/engine_discard.go:38-48 | From a full wall a seat asked about its winning draw discards a tile it does not hold: refused, but the question is gone and the draw is in its hand |
| `RoundScenes.ThreeWin` | internal/service/room/engine/engine_discard.go:198-204 | From a full wall, in seven actions, three seats win with their own draws and the hand is over |
| `Deals.WallDeals` | internal/service/room/engine/engine.go:320-372 | Any four hands and next draws that the 108 tiles allow are dealt by some full wall, hand for hand |
| `RoundTimeouts.StuckOnlyByDeadPass` | internal/service/room/engine/engine_claim.go:276-286 | An open hand stops waiting for anybody exactly by the last pass, or the timeout in its place, on a kong that was robbed before |
| `RoundTimeouts.TimeoutsCloseIff` | internal/service/room/engine/engine_timeout.go:11-93 | Timeouts alone close a hand, and then within its measure, exactly when it is past the opening and its pending kong has not been robbed, or it is naming missing suits and no seat still to name one has surrendered |
| `RoundTimeouts.TimeoutKeepsSide` | internal/service/room/engine/engine_timeout.go:24-50 | While such a hand is open a timeout is accepted, and timeouts lead neither into nor out of the hands they can finish |
| `RoundTimeouts.TimeoutsFromTheDeal` | internal/service/room/engine/engine_timeout.go:27-31 | From the deal, timeouts alone finish the hand exactly when the rule has no exchange: who times out in the exchange is passed over afterwards |
| `RoundHands.StepKeepsSizes` | internal/service/room/engine/engine_claim.go:139-252 | After the opening, hand size plus three per meld stays at the seat's share, plus one exactly while the seat has to discard or waits with an added kong that was not robbed; for every seat that has not surrendered, over every action |
| `RoundHands.RunKeepsSizes` | internal/service/room/engine/engine_discard.go:16-97 | The same over every sequence of actions |
| `RoundHands.OpeningFixesSizes` | internal/service/room/engine/engine_exchange.go:25-44 | The action that ends the opening fixes the shares: what the seats held just before |
| `RoundShares.SharesFromTheDeal` | internal/service/room/engine/engine.go:320-372 | From the deal through any actions: after the opening every seat that has not surrendered holds its share and one more exactly when due; the shares are thirteen without the exchange, and with it thirteen less the tiles given and plus the tiles received, three or none each |
| `RoundHands.RobbedHasNone` | internal/service/room/engine/engine_discard.go:174-176 | Robbing a kong takes the konger's only copy of the tile; robbing it again changes nothing |
| `RoundEffects.StepHasEffect` | internal/service/room/engine/engine_claim.go:19-313 | Every accepted action in every reachable state does what one relation says, without reference to the code's helpers: hands, piles, melds, payments, records, marks, turn, and who is asked what next |
| `RoundEffects.ClosesIff` | internal/service/room/engine/engine_discard.go:427-439 | An action is the last one exactly for the third win, a discard, win or completed kong on an empty wall, or a timeout at turn that leaves fewer than two seats in play or no tile |
| `RoundEffects.NothingElseIsBooked` | internal/service/room/engine/engine_claim.go:139-313 | Wins are recorded by accepted wins only, kongs exactly by declared kongs that do not wait and by the last answer on a waiting one, and points move in no other action |
| `RoundPay.WinIsPaid` | internal/mahjong/sichuan/xuezhandaodi/strategy.go:85-116 | For every accepted win: by a claim the seat that laid the tile loses the fan total and the winner gains it; with an own draw every other seat in play loses it and the winner gains the sum; the win is on record as it was reached |
| `RoundKongs.KongIsPaid` | internal/mahjong/sichuan/xuezhandaodi/strategy.go:118-150 | For every accepted kong: every other seat in play loses one point, two for a concealed kong, the konger gains the sum, the record names seat, kind, tile and source, the meld is laid and a replacement drawn; or, if another seat wins on the added tile, it waits with nothing paid |
| `RoundKongs.PassedKongIsPaid` | internal/service/room/engine/engine_claim.go:274-289 | A waiting kong that the last asked seat lets through is laid and paid like any added kong |
| `RoundKongs.KongAllowed` | internal/service/room/engine/engine_claim.go:327-366 | A kong is accepted exactly from a seat asked first for it in a window, or from the seat to discard, not having won, for four copies, or one beside its pong, of a suit it has not given up |
| `RoundOffers.BuildAsks` | internal/mahjong/sichuan/xuezhandaodi/strategy.go:11-45 | A seat other than the one that laid the tile is asked for a win exactly when it wins on it, for a pong or kong exactly when it is in play, holds two or three copies, has not given up the suit and no kong is being robbed; wins rank above kongs, kongs above pongs, in turn order |
| `RoundOffers.DiscardAsks` | internal/service/room/engine/engine_discard.go:62-97 | A discard opens a window exactly when something is due to another seat, and then asks everybody for what is due |
| `RoundOffers.AnswersAllowed` | internal/service/room/engine/engine_claim.go:576-613 | In a window a seat may pong or win exactly when it is asked for it and nobody asked stands above it; outside one only the seat that drew may win, exactly when the draw wins |
| `RoundOffers.PassAllowed` | internal/service/room/engine/engine_claim.go:265-297 | A pass is accepted exactly from a seat asked first, or from the seat that drew, but not as the last one on a kong whose tile is gone |
| `RoundFlow.DiscardMovesOn` | internal/service/room/engine/engine_discard.go:50-97 | After a discard the tile lies in the pile, the marks of kong and first discard move on, and the turn is with the nearest seat in play after the discarder; if nobody is asked it has drawn |
| `RoundFlow.WinMovesOn` | internal/service/room/engine/engine_discard.go:194-221 | After a win other seats that may win on the tile are still asked, in order; else the nearest seat in play draws, after the one that laid the tile or after the winner of an own draw |
| `RoundFlow.PongMovesOn` | internal/service/room/engine/engine_claim.go:19-60 | A pong takes two copies from the claimer's hand and the tile from the pile, lays the meld with its source and leaves the claimer to discard |
| `RoundFlow.PassMovesOn` | internal/service/room/engine/engine_claim.go:265-309 | After a pass the drawn tile joins the hand, the other candidates are asked on in order, the waiting kong completes, or the seat at turn draws |
| `RoundFlow.TimeoutMovesOn` | internal/service/room/engine/engine_timeout.go:11-93 | A timeout takes out the seat asked first; at its turn the nearest seat in play after it draws unless the hand ends, in a window it passes, in the opening it gives no tiles or names no suit |
| `RoundDraws.DrawEnds` | internal/service/room/engine/engine_discard.go:249-317 | A draw takes the top tile for the seat at turn, asks it exactly when the tile wins and else puts it into its hand; with three winners or no tile it ends the hand |
| `RoundOrder.WinnerKeepsTurnIff` | internal/service/room/engine/engine_discard.go:205-215 | A seat that has won gets the turn again exactly after a win that another seat may repeat while the winner's turn was next, or when nobody else is left in play |
| `RoundOrder.WinnersAreLeftOut` | internal/service/room/engine/engine_discard.go:400-411 | From the deal on, in every run without such a win, the seat at turn has not won |
| `RoundOrder.WinnerDrawsAgain` | internal/service/room/engine/engine_claim.go:265-287 | From a full wall in eight actions: the next seat wins on a discard, the others pass, and the winner draws and has to discard |
| `RoundFans.WinIsJudgedBy` | internal/service/room/engine/engine_discard.go:148-166 | A win is valued by the table of all copies in hand, melds and winning tile, and by exactly these circumstances: dealer, own draw, first draw, dealer's first discard, last tile, the seat's kongs and concealed kongs on record, the kong just before |
| `RoundTiles.ClaimGuard` | internal/service/room/engine/engine_claim.go:315-321 | A seat that may claim a pong or kong faces a window over a discard: the tile is last in another seat's pile, no draw is unfinished, so nothing is rewound, and the hand holds the two or three tiles |
| `RoundTiles.PongTiles` | internal/service/room/engine/engine_claim.go:19-60 | A pong that passes its guard succeeds and keeps every tile |
| `RoundTiles.GangTiles` | internal/service/room/engine/engine_claim.go:139-209 | A kong succeeds exactly when it is claimable, addable or concealed, and keeps every tile, also when it waits to be robbed |
| `RoundTiles.HuTiles` | internal/service/room/engine/engine_discard.go:100-221 | A win that passes its guard succeeds and takes at most the winning tile off the table |
| `RoundTiles.PassTiles` | internal/service/room/engine/engine_claim.go:255-313 | A pass succeeds exactly when it is allowed and is not the last one on a robbed kong; it keeps every tile either way |
| `RoundTiles.CompleteBuGangTiles` | internal/service/room/engine/engine_claim.go:368-382 | An added kong completes whenever the tile is still in the hand, moving it into the pong |
| `RoundTiles.DrawTiles` | internal/service/room/engine/engine_discard.go:249-333 | A draw succeeds or ends the hand, and keeps every tile |
| `RoundTiles.NoChiClaim` | internal/mahjong/sichuan/xuezhandaodi/strategy.go:11-45 | No reachable Sichuan state accepts a chi |
| `RoundCoherence.BuiltOk` | internal/service/room/engine/engine_claim.go:527-558 | The candidates of a window sit at different seats other than the discarder's, have not won, and hold what their actions use |
| `RoundChi.ResolveFindsChi` | internal/service/room/engine/engine_claim.go:413-429 | Without named tiles a chi sequence is found exactly when the hand and the claimed tile make one, in whatever order it is written |
| `RoundChi.ResolvedIsPossible` | internal/service/room/engine/engine_claim.go:384-476 | Whatever is resolved, named or found, is three consecutive tiles of a suit with the claimed one among them and the others in the hand |
| `RoundChi.ChiGoesThrough` | internal/service/room/engine/engine_claim.go:79-136 | A chi that passes its guard over a discard is accepted exactly when a sequence resolves, keeps every tile and leaves the claimer to discard; otherwise nothing changes |
| `RoundEngine.RoundState.EnterPhase` | internal/service/room/engine/phase.go:90-121 | The waiting flags and the reason change together: exactly the flag of the reason is up |
| `RoundEngine.RoundState.CloseClaimWindow` | internal/service/room/engine/engine_claim.go:516-525 | The window, its candidates and the pending kong are gone and nobody is waited for |
| `RoundEngine.RoundState.Finish` | internal/service/room/engine/engine_settlement.go:11-27 | The hand is closed with no draw, offer, window or phase left |
| `RoundEngine.RoundState.ListActiveSeats` | internal/service/room/engine/engine_discard.go:349-360 | The seats that have neither won nor surrendered, in order |
| `RoundEngine.RoundState.NextActiveSeat` | internal/service/room/engine/engine_discard.go:400-411 | The nearest of them after a seat; the seat itself when there is none |
| `RoundEngine.RoundState.TakeFromHand` | internal/mahjong/hand/hand.go:71-82 | Tiles leave the hand one by one up to the first that is missing; true exactly when none is |
| `RoundEngine.RoundState.TakeOffPile` | internal/service/room/engine/engine_persist.go:105-114 | The pile loses its last tile exactly when that is the named one |
| `RoundEngine.RoundState.DrawNextPlayable` | internal/service/room/engine/engine_discard.go:319-333 | Flowers are laid beside the seat until another tile or the end of the wall comes up |
| `RoundEngine.RoundState.CheckSeat` | internal/mahjong/sichuan/xuezhandaodi/xzdd.go:99-136 | True exactly for a seat in play whose hand with the tile avoids its missing suit and has a winning shape beside its melds |
| `RoundEngine.RoundState.DrawForTurn` | internal/service/room/engine/engine_discard.go:249-317 | Ends the hand, asks about a winning draw, or puts the draw into the hand, as the function of the state says |
| `RoundEngine.RoundState.OfferTo` | internal/mahjong/sichuan/xuezhandaodi/strategy.go:11-45 | What the Sichuan policy offers one seat: win, kong, pong; only the win when a kong is robbed or the suit is missing |
| `RoundEngine.RoundState.BuildClaimCandidates` | internal/service/room/engine/engine_claim.go:527-558 | The offers of the three seats after the discarder, in order |
| `RoundEngine.RoundState.BestCandidate` | internal/service/room/engine/engine_claim.go:560-574 | The first candidate of the highest priority |
| `RoundEngine.RoundState.IsTopSeat` | internal/service/room/engine/engine_claim.go:576-588 | Whether the seat is among the candidates of the highest priority |
| `RoundEngine.RoundState.DropCandidate` | internal/service/room/engine/engine_claim.go:590-601 | All candidates of the seat leave the list, the others stay in order |
| `RoundEngine.RoundState.RewindTurn` | internal/service/room/engine/engine_claim.go:482-498 | An unfinished draw goes back to the front of the wall, from the tsumo window or from the hand |
| `RoundEngine.RoundState.ApplyPong` | internal/service/room/engine/engine_claim.go:19-60 | In place, exactly the transition of the specification, accepted or refused |
| `RoundEngine.RoundState.ApplyChi` | internal/service/room/engine/engine_claim.go:79-136 | In place, exactly the transition of the specification |
| `RoundEngine.RoundState.FindChi` | internal/service/room/engine/engine_claim.go:384-429 | The named tiles if they fit, else the lowest fitting sequence |
| `RoundEngine.RoundState.CompleteKong` | internal/service/room/engine/engine_claim.go:368-382 | The tile leaves the hand, the first pong of it becomes a kong, the payments are recorded |
| `RoundEngine.RoundState.ScoreKong` | internal/mahjong/sichuan/xuezhandaodi/strategy.go:118-150 | Every other seat in play pays one, or two for a concealed kong, and the kong is recorded |
| `RoundEngine.RoundState.FinishKong` | internal/service/room/engine/engine_claim.go:211-252 | The konger draws with everything on offer cleared |
| `RoundEngine.RoundState.ApplyGang` | internal/service/room/engine/engine_claim.go:139-209 | In place, exactly the transition of the specification: claimed, added or concealed |
| `RoundEngine.RoundState.ApplyDiscard` | internal/service/room/engine/engine_discard.go:16-97 | In place, exactly the transition of the specification |
| `RoundEngine.RoundState.ScoreHu` | internal/mahjong/sichuan/xuezhandaodi/strategy.go:85-116 | Who pays a win: every other seat in play for a self-draw, else the seat that laid the tile |
| `RoundEngine.RoundState.RecordWin` | internal/service/room/engine/engine_discard.go:173-193 | A win is recorded: events, robbed tile, draw, follow-up marks, opening windows and candidates |
| `RoundEngine.RoundState.ComputeFan` | internal/service/room/engine/engine_discard.go:148-169 | What the fan table pays for the win, looked up from hand, melds, winning tile, kongs and circumstances |
| `RoundEngine.RoundState.GoOnAfterWin` | internal/service/room/engine/engine_discard.go:198-221 | The hand ends, the next claimer of the same priority may still win, or the next seat in play draws |
| `RoundEngine.RoundState.ApplyHu` | internal/service/room/engine/engine_discard.go:100-221 | In place, exactly the transition of the specification, worth what the fan table says |
| `RoundEngine.RoundState.ApplyPass` | internal/service/room/engine/engine_claim.go:255-313 | In place, exactly the transition of the specification |
| `RoundEngine.RoundState.SwapHands` | internal/mahjong/sichuan/xuezhandaodi/opening.go:261-286 | All seats give, then all receive: the exchange of the specification |
| `RoundEngine.RoundState.SubmitExchange` | internal/mahjong/sichuan/xuezhandaodi/opening.go:80-130 | In place, exactly the exchange submission of the specification |
| `RoundEngine.RoundState.SubmitMissing` | internal/mahjong/sichuan/xuezhandaodi/opening.go:132-161 | In place, exactly the missing-suit submission of the specification |
| `RoundEngine.RoundState.ApplyOpening` | internal/service/room/engine/engine_exchange.go:53-119 | In place, exactly the opening action of the specification |
| `RoundEngine.RoundState.SurrenderTurnAndContinue` | internal/service/room/engine/engine_timeout.go:74-93 | In place, exactly the surrendered turn of the specification |
| `RoundEngine.RoundState.ApplyTimeout` | internal/service/room/engine/engine_timeout.go:11-50 | In place, exactly the timeout of the specification |
| `RoundEngine.RoundState.StartRound` | internal/service/room/engine/engine.go:320-372 | Deals thirteen times around the table and opens the hand; false exactly when a tile was missing |
| `RoundEngine.BestOfMore` | internal/service/room/engine/engine_claim.go:560-574 | A later candidate takes the lead only with a strictly higher priority |
| `RoundPlay.PlayHand` | internal/service/room/engine/engine.go:320-372 | A hand played on the mutable record, with any actions, ends in the state of the specification, coherent and with every tile accounted for |
| `Persist.RestoreMarshal` | internal/service/room/engine/engine_persist.go:226-558 | Restoring the record of a reachable open hand gives back every field, the wall in order, melds, candidates with their priorities and the phase with its reason; only the hands are in index order |
| `PersistRuns.RestoredGoesOn` | internal/service/room/engine/engine_persist.go:309-342 | At any moment of any open hand saving and restoring succeeds, and from then on both hands accept the same actions, score the same and stay equal up to the order of tiles in the hands |
| `HandOrder.WinFanSame` | internal/mahjong/sichuan/xuezhandaodi/xzdd.go:215-292 | What a win is worth does not depend on the order of the tiles in the hand |
| `HandOrder.RunSame` | internal/service/room/engine/engine_persist.go:116-130 | States that differ only in the order of the hands accept the same actions for ever and stay that way |
| `Persist.SortCount` | internal/service/room/engine/engine_persist.go:281-288 | Sorting a hand for the record keeps its tiles |
| `Persist.SortAscends` | internal/service/room/engine/engine_persist.go:281-288 | and puts them in index order |
| `Persist.CandidatesRoundTrip` | internal/service/room/engine/engine_persist.go:485-512 | Saved candidates come back with the same seats, actions and recomputed priorities |
| `MeldText.MeldRoundTrip` | internal/service/room/engine/meld_fact.go:18-60 | A meld text of real tiles reads back as kind, tiles and seat; only one with neither tiles nor seat cannot be read |
| `Tiles.IndexRoundTrip` | internal/mahjong/tile/tile.go:57-82 | Indices 0 to 41 and the 42 real tiles correspond one to one |
| `Tiles.TextRoundTrip` | internal/mahjong/tile/tile.go:85-136 | Every real tile reads back from its two-character text |
| `Tiles.ParseIsReal` | internal/mahjong/tile/tile.go:105-136 | Parsing never yields the code for no tile, nor an unreal tile |
| `HandForm.MeldN` | internal/mahjong/hu/hu.go:127-176 | Although it branches only on the smallest kind, true exactly when the table is a union of that many triplets and runs |
| `HandForm.StandardFormMelds` | internal/mahjong/hu/hu.go:104-120 | True exactly when the table is a pair and that many triplets and runs |
| `HandForm.StandardForm` | internal/mahjong/hu/hu.go:86-91 | The same for fourteen tiles and four melds |
| `HandForm.StandardFormWithOpenMelds` | internal/mahjong/hu/hu.go:94-102 | The same next to melds already laid out |
| `HandForm.SevenPairs` | internal/mahjong/hu/hu.go:55-74 | True exactly when the table is seven pairs, four of a kind counting as two |
| `HandForm.IsWinning` | internal/mahjong/hu/hu.go:18-29 | True exactly for a winning shape of a concealed hand |
| `HandForm.IsWinningWithOpenMelds` | internal/mahjong/hu/hu.go:36-52 | For every table and every number of melds: true exactly when no kind occurs more than four times and the table is a pair and the missing melds, or seven pairs without open melds |
| `SichuanWin.DecideHu` | internal/mahjong/sichuan/xuezhandaodi/xzdd.go:99-136 | True exactly when the tile is playable, the hand with it holds nothing of the missing suit and has a winning shape |
| `SichuanWin.CheckHuSameBag` | internal/mahjong/sichuan/xuezhandaodi/xzdd.go:99-136 | The answer depends on the hand only through the bag of its tiles |
| `SichuanWin.CountsAreCopies` | internal/mahjong/hand/hand.go:27-42 | The count table of real tiles holds the number of copies of each kind |
| `Ting.TingTiles` | internal/mahjong/hu/ting.go:6-27 | Exactly the kinds that complete the concealed hand, in order |
| `SichuanScore.FanTotal` | internal/mahjong/sichuan/xuezhandaodi/xzdd.go:215-292 | Every win is worth at least one; with the first draw, on the dealer's first discard or with seven pairs holding four of a kind at least eight |
| `SichuanScore.ScoreFans` | internal/mahjong/sichuan/xuezhandaodi/xzdd.go:215-292 | The entries of the fan table add up to that total |
| `SichuanScore.BuildWinTable` | internal/mahjong/sichuan/xuezhandaodi/xzdd.go:124-132 | Concealed hand, winning tile and melds counted in one table |
| `SichuanScore.TilesAreWorth` | internal/mahjong/sichuan/xuezhandaodi/xzdd.go:218-279 | Tiles alone: eight for seven pairs with four of a kind, four for other seven pairs and for triplets of 2, 5 and 8, two for triplets, one else; four more for one suit, one for each triplet and each four of a kind outside the pairs; eight replace the shape with the first draw or on the first discard |
| `SichuanScore.MarksAreWorth` | internal/mahjong/sichuan/xuezhandaodi/xzdd.go:258-276 | After a kong, on a kong's discard, on the last tile and with a robbed kong on record a win is worth one more each |
| `SichuanScore.KongsAreWorth` | internal/mahjong/sichuan/xuezhandaodi/xzdd.go:254-288 | Four kongs add sixteen; fewer add one for each concealed one and one more from the second on |
| `RoundRuns.RobbedKongIsNeverPaid` | internal/mahjong/sichuan/xuezhandaodi/xzdd.go:270-275 | In no hand is an added kong on record for which another seat answers, so the fan for robbing one is never paid |
| `Ting.TestAgreesIff` | internal/mahjong/hu/ting.go:6-27 | For a hand of the size that goes with its melds the test and waiting for a tile beside those melds agree exactly when there is no meld or nothing is waited for |
| `Ting.WaitsUnseen` | internal/mahjong/hu/ting.go:6-27 | Ten tiles that wait beside a pong, and the test says not ready |
| `Ting.ReadyHasThirteen` | internal/mahjong/hu/ting.go:6-27 | Only a hand of thirteen concealed tiles is ever ready, so a seat with a meld never is |
| `Shanten.StandardShanten` | internal/mahjong/analysis/analysis.go:226-293 | The pruned recursive search returns the least score over all ways to cut the hand into melds, partial sets and at most one pair, not below -1 |
| `Shanten.WinningIsMinusOne` | internal/mahjong/analysis/analysis.go:226-293 | For fourteen tiles that number is -1 exactly for a pair and four melds |
| `Shanten.ReadyIsZero` | internal/mahjong/analysis/analysis.go:226-293 | For thirteen tiles it is 0 exactly when some one tile completes a pair and four melds |
| `Shanten.ShantenUnique` | internal/mahjong/analysis/analysis.go:226-293 | The least score is one number |
| `PairDistance.PairScoreIsDistance` | internal/mahjong/analysis/analysis.go:295-312 | What is counted from pairs and kinds is the least number of tiles missing for seven different pairs, over every choice of seven kinds, exactly when no more than seven kinds are paired |
| `PairDistance.SevenPairsShanten` | internal/mahjong/analysis/analysis.go:295-312 | The counting loops return one less than that number |
| `PairDistance.Distance` | internal/mahjong/analysis/analysis.go:36-50 | Eight for no tiles, -1 for a winning hand of fourteen, else the nearer of the standard and the seven-pairs distance |
| `PairDistance.MinusOneWins` | internal/mahjong/analysis/analysis.go:36-50 | Fourteen tiles with at most four of a kind are at -1 exactly when they win |
| `PairDistance.ZeroLacksOne` | internal/mahjong/analysis/analysis.go:36-50 | Thirteen tiles are never below 0, and at 0 exactly when one tile completes a pair and four melds or seven different pairs |
| `PairDistance.FourCountsOnce` | internal/mahjong/analysis/analysis.go:295-312 | A winning seven-pairs hand lacks nothing by this count exactly when no kind occurs four times |
| `PairDistance.FourIsTwoPairs` | internal/mahjong/analysis/analysis.go:295-312 | A winning hand with four of a kind that still lacks something by it |
| `Decomps.EnumerateMelds` | internal/mahjong/guobiao/jingji/mcr_matchers.go:68-112 | Lists every ascending cut into that many melds, once, and nothing else |
| `Decomps.EnumerateDecomps` | internal/mahjong/guobiao/jingji/mcr_matchers.go:43-66 | Lists every pair with every ascending cut of the rest behind the open melds, once; empty exactly when the standard form fails on the same tiles |
| `Decomps.ListedOnceIff` | internal/mahjong/guobiao/jingji/mcr_matchers.go:68-112 | A multiset of melds is listed once exactly when no kind begins both a triplet and a run of it |
| `Decomps.ListsTwiceIff` | internal/mahjong/guobiao/jingji/mcr_matchers.go:68-112 | A table has a decomposition listed more than once exactly when some kind gives a triplet and a run and melds make up the rest |
| `Decomps.ListedTwice` | internal/mahjong/guobiao/jingji/mcr_matchers.go:68-112 | A table whose one decomposition is listed in two orders |
| `OpeningChoice.ExchangeResult` | internal/mahjong/sichuan/xuezhandaodi/opening.go:261-286 | When the last selection arrives no removal can fail, and every seat has its hand without its own selection and with that of the seat the direction names |
| `RoundOpening.ExchangeMovesOn` | internal/mahjong/sichuan/xuezhandaodi/opening.go:80-130 | A selection is noted as made, the first one fixes the direction, the last one gives every seat the selection of the seat that many places on |
| `RoundOpening.MissingMovesOn` | internal/mahjong/sichuan/xuezhandaodi/opening.go:132-161 | The suit named is the suit given up, and without a valid name the first one the hand has least of; the fourth one starts the play with the first draw |
| `RoundTiles.ExchangeTiles` | internal/mahjong/sichuan/xuezhandaodi/opening.go:261-286 | Whatever the direction, the exchange keeps every tile |
| `OpeningChoice.ChooseExchange` | internal/mahjong/sichuan/xuezhandaodi/opening.go:229-259 | Three tiles of the hand; of seven or more suited tiles the three lowest of the first suit it has most of |
| `OpeningChoice.LargestSuit` | internal/mahjong/sichuan/xuezhandaodi/opening.go:237-248 | The first suit with the largest count |
| `OpeningChoice.MissingIsFirstLeast` | internal/mahjong/sichuan/xuezhandaodi/opening.go:304-318 | The suit named for a seat is the first of those it has least of |
| `Settlement.BuildSettlement` | internal/mahjong/sichuan/xuezhandaodi/settlement.go:32-78 | The penalties seat by seat, the balances after the events and all penalties, and the totals as reported |
| `Settlement.SettlementIsZeroSum` | internal/mahjong/sichuan/xuezhandaodi/settlement.go:90-136 | Balances cancel out after the events and after the penalties of each seat |
| `Settlement.PenaltiesAreTransfers` | internal/mahjong/sichuan/xuezhandaodi/settlement.go:106-136 | Every penalty goes from one seat to a different one |
| `Settlement.KongIncomeIsRefunded` | internal/mahjong/sichuan/xuezhandaodi/settlement.go:121-150 | A seat holding its missing suit gives back to each payer exactly its income from claimed and from added kongs, an unready seat in a draw also that from concealed ones; each under its own label and once, and no other seat gives anything back |
| `Settlement.SeatGain` | internal/mahjong/sichuan/xuezhandaodi/settlement.go:45-67 | A seat's turn in the settlement brings every other seat two points if it holds its missing suit, a winner one if it is unready, and what was paid to it for refunded kongs |
| `Settlement.ReportedIsEarly` | internal/mahjong/sichuan/xuezhandaodi/settlement.go:69-75 | A reported total is never above the final balance, and equals it exactly when no later seat holds its missing suit, is unready while this seat won and it did not, or is unready in a draw and was paid by this seat for kongs |
| `Settlement.ReportedCancelIff` | internal/mahjong/sichuan/xuezhandaodi/settlement.go:69-75 | The reported totals never add up to more than nothing, and cancel out exactly when no seat is paid by a later one |
| `PlayedHands.ReportedMayNotCancel` | internal/mahjong/sichuan/xuezhandaodi/settlement.go:69-75 | A hand played from a full wall whose reported totals add up to less than nothing, in any order of the winners |
| `Settlement.FoldIsZeroSum` | internal/service/room/engine/engine_score.go:135-149 | Transfers fold to balances that cancel out |
| `Settlement.RoomIsZeroSum` | internal/service/room/actor/actor_dispatch.go:240-266 | Over any number of lists of transfers the totals of a room cancel out |
| `PlayedHands.PlayedRoomIsZeroSum` | internal/service/room/actor/actor_dispatch.go:240-266 | Over any number of hands, each played from a full wall with any actions, the totals of the room cancel out |
| `PlayedHands.PlayedIsZeroSum` | internal/service/room/engine/engine_settlement.go:29-41 | The settlement of any hand played from a full wall cancels out after the events and after each seat |
| `Settlement.Room.CloseHand` | internal/domain/room/room.go:182-189 | The room's totals grow by the folded events of the hand |
| `Settlement.Ledger.Append` | internal/mahjong/sichuan/xuezhandaodi/settlement.go:106-119 | A penalty is listed and moves the two balances |
| `Settlement.Ledger.AppendRefunds` | internal/mahjong/sichuan/xuezhandaodi/settlement.go:121-136 | The refunds of the specification, none unless the seat is a pig or unready in a draw |
| `RoomActor.EveryCommandIsAnsweredOnce` | internal/service/room/actor/actor.go:260-531 | In every interleaving a command that entered the mailbox is waiting there or has had exactly one reply; when the loop has ended none is left and every one has had it |
| `RoomActor.LoopCatchesUp` | internal/service/room/actor/actor.go:260-489 | When nobody holds the lock or submits any more, as many loop steps as there are messages, and one when closing, answer everything |
| `RoomActor.OfflineTimeoutIsCurrent` | internal/service/room/actor/actor.go:408-440 | In every interleaving a timeout removes a user exactly when its timer was armed by a report that the user is offline and since then the user neither acted, left, got ready, came back by the notice nor was reported again, and no shutdown was handled, also while the message was queued |
| `RoomActor.JoinChangesNothing` | internal/service/room/actor/actor.go:278-281 | In every interleaving, a join taken before a queued timeout of the same user leaves it in force exactly when it was due |
| `RoomActor.JoinDoesNotCancel` | internal/service/room/actor/actor.go:278-281 | A run in which this happens: reported offline, joined again, and the timeout takes effect |
| `RoomActor.StepTimers` | internal/service/room/actor/actor.go:914-954 | Timer generations stay above every stale timer in the mailbox |
| `RateLimit.KeepsToRateIff` | pkg/ratelimit/ratelimit.go:31-54 | For every user, window and sequence of calls the allowed calls are at most burst plus rate times the window, exactly when burst is at least one and rate not negative |
| `RateLimit.PassesIffWithin` | pkg/ratelimit/ratelimit.go:31-54 | Of any sequence of calls a user's first one passes, and a later one exactly when with it the calls passed since every earlier one stay within burst plus rate times the time since; for all limits |
| `RateLimit.WindowBound` | pkg/ratelimit/ratelimit.go:31-54 | That bound from any state of the buckets |
| `RateLimit.UserLimiter.Allow` | pkg/ratelimit/ratelimit.go:31-54 | One call, in place: refill up to the burst, pass when a token is there; an empty user always passes and changes nothing |
| `RateLimit.IdemCache.SeenOrStore` | pkg/ratelimit/ratelimit.go:74-101 | True exactly when the key is among the capacity most recently used keys; an empty key is never seen nor stored |
| `LobbyPages.PagesCoverTheLobby` | internal/service/lobby/lobby.go:162-215 | Following the tokens visits every open room once, in order, and ends, exactly when no page that is not the last one ends in a room whose id is empty or ends in a blank |
| `LobbyPages.BreakRepeats` | internal/service/lobby/lobby.go:197-214 | The token of a page that ends in such a room is refused when the id is all blank, and else leads to a page that begins with a room already listed |
| `LobbyPages.SinglePagesStick` | internal/service/lobby/lobby.go:197-214 | With one room to a page such a room before the last one keeps the listing from ever ending |
| `LobbyPages.BlankLobbySticks` | internal/service/lobby/lobby.go:197-214 | Two open rooms for which this happens |
| `LobbyPages.ListRooms` | internal/service/lobby/lobby.go:162-215 | The page after the token of the one ordered listing of the public rooms with a free seat |
| `LobbyPages.TokenRoundTrip` | internal/service/lobby/lobby.go:502-522 | A token reads back as creation time and id, the id without trailing blanks, and is refused when nothing is left of it |
| `LobbyPages.ListingIsUnique` | internal/service/lobby/lobby.go:191-196 | The order leaves one listing only |
| `LobbyPages.OrderIsTotal` | internal/service/lobby/lobby.go:191-196 | Creation time, then id, is a strict total order |
| `Walls.NewFull108` | internal/mahjong/wall/wall.go:17-28 | Every suited tile four times and nothing else |
| `Walls.Wall.Remaining` | internal/mahjong/wall/wall.go:96-104 | How many tiles are left to draw |
| `Walls.Wall.Draw` | internal/mahjong/wall/wall.go:107-117 | The first tile left, or none when the wall is empty |
| `Walls.Wall.PushFront` | internal/mahjong/wall/wall.go:120-131 | The tile becomes the next one to draw, also before anything was drawn |
| `Walls.DrawThenPutBack` | internal/mahjong/wall/wall.go:107-131 | A draw that is put back leaves the wall as it was |
| `Walls.Hand.Add` | internal/mahjong/hand/hand.go:63-68 | The tile joins the hand at its end |
| `Walls.Hand.Remove` | internal/mahjong/hand/hand.go:71-82 | One copy leaves the hand; false, with nothing changed, when there is none |
| `Walls.Hand.Counts` | internal/mahjong/hand/hand.go:27-42 | The count table of the hand |

## Left out

- The names of the fans a win is made of: only their total is computed.
- Notifications, the last action, client views and progress snapshots: they change nothing that a later
  action reads.
- Clocks, deadlines and the choice of timer lengths (`phase.go`, lines 52 to 78 and 123 to 217); a
  timeout may happen at any moment.
- JSON itself: the record is a datatype. The rule state is saved as it is; its normalisation fills in
  nothing in a state the rule itself has built.
- Records that no hand has written, with a turn, dealer or discarder outside the four seats or flags
  that contradict each other, are not modelled beyond what the restoring functions say.
- The prompt kept with a candidate: a restored kong-robbing window prompts with the plain win choice.
- Shuffling: the wall is any order of the 108 tiles. Other tile sets and rules than the Sichuan one,
  except for chi, which the shared claim code supports.
- A winning tile beyond the 34 playable kinds, which would be an index out of range, is no win here; no
  reachable state offers one.
- Replay of a whole hand by the engine (`engine_auto.go`) and pong by timeout
  (`engine_claim.go`, lines 63 to 75).
- Integer widths: amounts, steps and totals are unbounded integers.
- RateLimit.KeepsToRateIff: counts in real numbers where the limiter has 64-bit floating point, so rounding
  is not bounded.
- RateLimit.WindowBound: real numbers for the same reason.
- RateLimit.PassesIffWithin: real numbers for the same reason.
- RateLimit.UserLimiter.Allow: real numbers for the same reason.
- Safety, progress and discard advice of `analysis.go`; the fan matchers of `mcr_matchers.go`.
- Text parsing treats case and blanks of ASCII letters only; the engine's tile texts have no others.
- The hand and the wall are sequences inside the mutable record, not objects of their own; `Walls` has
  those classes by themselves, so sharing of one hand between two records is not captured.
- The four waiting flags of the record are the fields of one value, which only `EnterPhase` writes.
- The actor is a transition system on values: its steps interleave, so the mailbox, the lock and the
  timers are parts of one state. The phase token check and the room's own rules for joining and
  leaving are not part of it; a command may or may not close the room. A stopped timer may still
  fire, which covers callbacks already under way.
- Blocking of a submitter while the mailbox is full: a submitter may give up at any time once it holds
  the lock, and the model says nothing about how long it waits.
- The iteration order over the winners at the settlement is a parameter for each seat; names and fans of
  winners are not modelled.
- The key of the idempotency cache is taken as one text.
- Room seating, ready flags and hand rollover of `room.go`, and the other lobby operations.
