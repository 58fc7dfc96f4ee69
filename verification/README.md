# OpenVersus: the Arena, its store, and the edge's link

Dafny models of the parts of the OpenVersus server whose correctness rests on whole runs rather than on single functions, with
proofs of what holds over them.

**The Arena run** (`Arena*.dfy`). The mode's state machine: teams, players, pairings, inventories and five phases, moved by
eight calls from games and by deadlines. Its transitions are written twice: as functions on values (`ArenaSteps`,
`ArenaTransitions`, `ArenaCalls`), about which everything is proved, and as the object the program keeps
(`ArenaRunObject.ArenaRun`), whose methods assign fields and loop as the program does and are proved to leave what the functions
say. `ArenaInvariant` and `ArenaTransitions` say what is true of a run at every moment; `ArenaResults`, `ArenaRounds`,
`ArenaPairing` and `ArenaTransitions` that every part of a transition keeps it; `ArenaProgress`, `ArenaCallProgress` and
`ArenaWholeRun` what holds from any moment of a run to any later one; `ArenaHistory` and `ArenaWholeHistory` what every team's
record says of the rounds it played. What each call leaves, to the last coin, is in `ArenaPicks`, `ArenaAnswers` and
`ArenaTrades` (picks, check-ins, shops), `ArenaVerdicts` (matches), `ArenaPay` and `ArenaPhases` (a round's end and start) and
`ArenaTimers` (deadlines, and the start); `ArenaRanks`, `ArenaMoney`, `ArenaShop`, `ArenaItems` and `ArenaDraws` have the ranks,
the coins, the inventory and the weighted draw.

Four of the transitions call each other with no written bound while no player is left in. They end because every round between
two teams costs somebody health: no team survives `(StartingLife - 1) / (smallest loss) + 1` losses, so the round never passes
teams times that (`Horizon`), and it is the measure that makes the recursion well-founded.

**The run under concurrency** (`ArenaStore*.dfy`). Any number of replicas read the record, run a transition on what they
read, and write it back with its deadline only if it is still that; results of matches are delivered again until acknowledged.
One step relation, in which every command to Redis is one step and replicas may stop anywhere; `ArenaEffects.dfy` follows what
a commit's replica has to carry out, and `ArenaStoreRuns.dfy` has the events by which a result is lost.

**The edge's link** (`Gateway*.dfy`, `EdgeSession*.dfy`, `Link*.dfy`). A game's socket outlives its gateway node: the edge keeps
a cursor into the player's log, and the next node replays what comes after it while it holds what is delivered meanwhile. The
log, the node's two subscriptions, its connection, the link that may lose any suffix, the edge and the game are one step
relation (`LinkProtocol`, with `LinkPositions` and `LinkCloses` for where a game's sending begins and which closes are held);
`GatewayStreams` says what a connection queues over any calls, `LinkUnlogged` follows what is in no log; `LinkTheorems` says
what the game is sent, and `LinkRuns` gives the sessions in which it is not sent everything. The connection
and the edge's session are also given as objects, changed in place.

**Three smaller cores**: an Arena lobby's join code under concurrent asks (`LobbyCodes.dfy`), a player's document and the update
a save of it sends (`PlayerRecords.dfy`, `PlayerCalls.dfy`, `PlayerRecordObject.dfy`), and the repair of cjson's empty tables (`EmptyTables.dfy`).

## What is taken as given

- A run is started with playable rules (`Playable`: positive health, losses and timers, no negative pay), a catalog that names
  each item once, a roster with a skin for each fighter (`Ready`), at least one team, and each participant named once (`Cast`).
  Calls come at times of 0 or later.
- A random draw is a value of `Chance` named by what it is for; for every outcome of every draw there is a `Chance` that gives
  it, so a statement for every `Chance` is one for every outcome. `Fair` says a shuffle permutes and a draw is in range. Who
  wins a match between bots is any answer.
- Match ids are the round and the pairing's place: two draws of an id never coincide.
- A run id is created once; an expired run is not created again. Redis applies each command, and each transaction, at once.
- Appending to a player's log and publishing it is one step, as `PlayerMessages` does it; each node handles the messages of a
  channel in the order they were published, but the two channels (messages and closes) independently. The log is not trimmed
  past a cursor. An unlogged message is never the id frame's bytes.
- An asker's draw of a code is any code; custom lobbies claim and release codes of their own in the same namespace.
- The callers of a player's document assign neither `_id` nor `__v`; what the schema computes is never an array.

## Where the code and its promises part

- A reroll charge is computed in 32 bits: `RerollsNeverPay` says exactly when it cannot add coins, `RerollsCanPay` gives a number
  of rerolls for which it does.
- A close travels on another channel than messages. Handled live, `LiveClose` says exactly when the game has been sent what was
  logged before it, and `CloseOvertakes` gives a session in which it has not; held during a replay, `FlushedClose` says exactly
  when, and `FlushOvertakes` gives a session. A close met in the log is always exact (`ReplayedClose`).
- A node's claim and its registration of a connection are two steps, and what is handed out between them reaches nobody:
  `ClaimMisses` says exactly what a game is not sent, `ClaimsAtOnce` that with nothing between the two it is sent everything after
  its position, and `ClaimCanMiss` gives a session in which it is not.
- A match of round 1 is launched before the fighters are chosen, and its result is refused while they are: acknowledged all the
  same, it is not handed out again. `NoResultLost` says that the match of an acknowledged result was decided when the result was
  handled exactly if the character select was over; `ResultCanBeLost` gives the events of one that is lost. (Its match is left to
  the match deadline, which settles it as one never reported.)
- A record's own version is not moved on by a save: `SecondArraySave` says exactly when a second save of an assigned array is
  lost, `SecondSaveLost` gives a document and two calls for which it is.
- "No step raises a team's health" holds call by call, not statement by statement: emptying a team whose players are gone sets
  a health already below 0 to 0 in the middle of its match's settlement.

## Model

| member | source | states |
|---|---|---|
| `ArenaWholeRun.StoryTold` | src/OpenVersus.Server.Core/Arenas/ArenaRun.cs:533-574 | over a whole run, from its start and through any calls: each team is told its Arena has ended exactly once, in the step it goes out; the finish is told once, last, exactly when the run has ended, and by then every team was told |
| `ArenaWholeRun.EveryRunEnds` | src/OpenVersus.Server.Core/Arenas/ArenaRun.cs:440-584 | from any reachable state, ticking a run at its deadlines ends it within 5 x (teams x loss limit) + 4 ticks |
| `ArenaWholeRun.TicksLimited` | src/OpenVersus.Server.Core/Arenas/ArenaRun.cs:385-421 | whatever other calls come between, only so many ticks are ever taken, and the round never passes teams x loss limit |
| `ArenaWholeRun.TickEndsPhase` | src/OpenVersus.Server.Core/Arenas/ArenaRun.cs:385-421 | a run has a positive deadline exactly until it has ended; a tick is taken exactly at or after it, and then strictly raises (round, phase) |
| `ArenaWholeRun.SecondTickRefused` | src/OpenVersus.Server.Core/Arenas/ArenaRun.cs:388-391 | a second tick for the same or an earlier time finds the phase moved on and is refused, changing nothing |
| `ArenaWholeRun.NobodyLingers` | src/OpenVersus.Server.Core/Arenas/ArenaRun.cs:364-473 | no phase waits for nobody: an open shop has a player in who is not done, a match phase an undecided pairing with a player, results a player in who has not checked in |
| `ArenaTimers.SelectAlwaysWaits` | src/OpenVersus.Server.Core/Arenas/ArenaRun.cs:267-303 | over any calls from the start: while the character select lasts a player in has no fighter yet, or no player takes part at all (an Arena of bots waits for its deadline) |
| `ArenaTimers.ApplyTimed` | src/OpenVersus.Server.Core/Arenas/ArenaRun.cs:440-577 | whatever is called: while round and phase stay the deadline stays and no configs are sent; when they change, the deadline is the new phase's own timer from now (none at the end), and the configs are told once, last, exactly if the phase entered is a shop or a round's matches |
| `ArenaTimers.BegunLeaves` | src/OpenVersus.Server.Core/Arenas/ArenaRun.cs:226-247 | a start: round 1, the character select for its own time, every seat's participant with the ruled coins, empty slots and offer (bots nothing), every team with its members in order, full health and no result, paired along the shuffle; nobody else takes part |
| `ArenaWholeRun.ResultTakenOnce` | src/OpenVersus.Server.Core/Arenas/ArenaRun.cs:348-358 | once a match id was taken, every later result for it is refused, whatever happened between |
| `ArenaWholeRun.PlayerPaired` | src/OpenVersus.Server.Core/Arenas/ArenaRun.cs:588-609 | in every state each player still in is in exactly one pairing of the round, flagged for launch under the round's own match id |
| `ArenaWholeHistory.RecordsTold` | src/OpenVersus.Server.Core/Arenas/ArenaRun.cs:478-609 | over any calls from the start there is one list of rounds, each with one set of pairings: those of any moment of the run, with every result they had by then, are found there; each team met in round r the opponent its history names; what each taken call decided is there as its reports and connections rule (a result: the pairing of its id; the match deadline: every undecided pairing; a shop's end: every pairing between bots, as the bots' match went); and its wins, losses, streaks and health are those of the list that is true at r exactly when its pairing of round r names it the winner |
| `ArenaWholeHistory.RecordIsRead` | src/OpenVersus.Server.Core/Arenas/ArenaRun.cs:478-504 | in every state: a result for each round decided for the team, true exactly when it won its one pairing of that round, against the opponent of that round |
| `ArenaWholeHistory.ApplyRounds` | src/OpenVersus.Server.Core/Arenas/ArenaRun.cs:249-421 | whatever is called, the rounds only go on: those before the last stay as they were, results given in the last stay; and what a taken result, deadline or shop call decides is decided there as its own arguments rule |
| `ArenaHistory.ResolvedResults` | src/OpenVersus.Server.Core/Arenas/ArenaRun.cs:478-530 | a verdict adds one result to the lists of its two teams, whether it names them, and none to any other team's |
| `ArenaHistory.PairedRounds` | src/OpenVersus.Server.Core/Arenas/ArenaRun.cs:577-609 | pairing the next round adds one round in which nobody has a result yet |
| `ArenaWholeRun.RecordAddsUp` | src/OpenVersus.Server.Core/Arenas/ArenaRun.cs:478-530 | wins plus losses is the number of rounds decided for the team, and at most one streak runs; some list of results explains the record (RecordsTold says which) |
| `ArenaWholeRun.PlayFollows` | src/OpenVersus.Server.Core/Arenas/ArenaRun.cs:249-421 | any list of calls keeps the invariant and leads to a later moment: who plays never changes, a team out and its players never change again, health never rises, histories only grow, results of a round's pairings stay |
| `ArenaWholeRun.BegunKeeps` | src/OpenVersus.Server.Core/Arenas/ArenaRun.cs:226-247 | a run starts with its invariant, round 1 paired, and launches exactly the pairings with a player |
| `ArenaWholeRun.EnrolOk` | src/OpenVersus.Server.Core/Arenas/ArenaRun.cs:229-243 | every participant is enrolled once, on their own team, and nobody else is |
| `ArenaVerdicts.ResultLeaves` | src/OpenVersus.Server.Core/Arenas/ArenaRun.cs:348-358 | a result is taken exactly in an open shop or a round's matches, for an undecided match of the round, with side 0, 1 or none; then the match its id names has as winner the reported side, or with no report nobody if both have players, else the players, or the bots if the players are all gone; its two teams have one result more, their streaks and the health the round takes, exactly the gone ones are emptied, all else is as it was; the run is that, or the round's end on just that |
| `ArenaVerdicts.DeadlineLeaves` | src/OpenVersus.Server.Core/Arenas/ArenaRun.cs:409-415 | at the match deadline every undecided match is decided so, as with no report, each for its own two teams, and the run is the round's end on just that |
| `ArenaVerdicts.ShopEndLeaves` | src/OpenVersus.Server.Core/Arenas/ArenaRun.cs:461-473 | closing the shop decides exactly the matches between bots, for the side the bots' match names, with their teams' results and health; with players' matches left the run is just that, otherwise the round's end on it |
| `ArenaPay.EndRoundPays` | src/OpenVersus.Server.Core/Arenas/ArenaRun.cs:557-563 | after a round's end, however far the same call runs on: if two teams go on, each of their players has exactly interest up to its cap, the round's table entry, a win's coins if their team won a pairing of the round, and their streak's entries more than before; everyone else, and everyone if no two teams go on, has the coins they had, and nothing else of a player changes but the shop |
| `ArenaPhases.EndRoundLeaves` | src/OpenVersus.Server.Core/Arenas/ArenaRun.cs:533-574 | a round's end: with no two teams, or no player, going on the run has ended; with a player going on who has not checked in it waits for the next round; otherwise that round's shop is open. The teams in are exactly those in before with health left, and no team's results or health are touched |
| `ArenaPhases.StartRoundLeaves` | src/OpenVersus.Server.Core/Arenas/ArenaRun.cs:577-609 | a round started with players in: the k-th pairing is of places 2k and 2k + 1 of the shuffle of the teams in (the last odd one with its mirror), swapped exactly if only the second has players; every player in has an open shop with the new round's pages; nothing else of a team or player changes |
| `ArenaPhases.OpenShopLeaves` | src/OpenVersus.Server.Core/Arenas/ArenaRun.cs:440-458 | an opened shop: every player in has this round's pages and is not done, nobody else changes |
| `ArenaWholeRun.SomeArenaOpens` | src/OpenVersus.Server.Core/Arenas/ArenaRun.cs:226-247 | what is asked of a start can be met: there is an Arena of two players to start |
| `ArenaRanks.FinalRanksFill` | src/OpenVersus.Server.Core/Arenas/ArenaRun.cs:533-555 | in every reachable state the final ranks of the teams out are exactly {teams in + 1, ..., n} |
| `ArenaRanks.EndRanks` | src/OpenVersus.Server.Core/Arenas/ArenaRun.cs:533-555 | at the end the final ranks are a permutation of 1..n, and one team is ranked before another if and only if it went out later, or in the same round healthier, or as healthy with the lower index |
| `ArenaRanks.ShownRanksFill` | src/OpenVersus.Server.Core/Arenas/ArenaState.cs:137-160 | the ranks shown are at every moment a permutation of 1..n: the teams in by health and then index, all before the teams out |
| `ArenaCallProgress.ApplySound` | src/OpenVersus.Server.Core/Arenas/ArenaRun.cs:249-421 | every call is refused with the run untouched, or is one later moment of it, told and launched right |
| `ArenaCallProgress.TickSound` | src/OpenVersus.Server.Core/Arenas/ArenaRun.cs:385-421 | a tick before the deadline or after the end is refused; any other ends the phase, and the next deadline (if any) is ahead of it |
| `ArenaCallProgress.CloserIn` | src/OpenVersus.Server.Core/Arenas/ArenaRun.cs:306-341 | a player whose shop call is taken is on a team still in, although the call never tests for it |
| `ArenaCallProgress.SelectSound` | src/OpenVersus.Server.Core/Arenas/ArenaRun.cs:267-291 | a pick is refused with the run untouched, or is a later moment, told and launched right (see PicksSettle for what it changes) |
| `ArenaCallProgress.MatchResultSound` | src/OpenVersus.Server.Core/Arenas/ArenaRun.cs:348-358 | a result's step, round end and following rounds included, is a later moment, told and launched right |
| `ArenaCallProgress.CheckinSound` | src/OpenVersus.Server.Core/Arenas/ArenaRun.cs:364-374 | a check-in, and the round it may start, is a later moment, told and launched right |
| `ArenaProgress.OpenShopSound` | src/OpenVersus.Server.Core/Arenas/ArenaRun.cs:440-458 | however deep the four transitions call each other with no player left in, the result is one later moment: told and launched right, deadline 0 or ahead |
| `ArenaProgress.EndShopSound` | src/OpenVersus.Server.Core/Arenas/ArenaRun.cs:461-473 | closing the shop strictly raises (round, phase), through any number of rounds between bots |
| `ArenaProgress.EndRoundSound` | src/OpenVersus.Server.Core/Arenas/ArenaRun.cs:533-574 | a round's end tells exactly those who go out, each once, and the finish only when it enters the end |
| `ArenaProgress.StartRoundSound` | src/OpenVersus.Server.Core/Arenas/ArenaRun.cs:577-584 | a round's start launches exactly the resulting pairings with a player, also when bots then play on to the end |
| `ArenaProgress.LaunchesTold` | src/OpenVersus.Server.Core/Arenas/ArenaRun.cs:476 | the launches are the pairings with a player, by index, and nothing else |
| `ArenaTransitions.OpenShop` | src/OpenVersus.Server.Core/Arenas/ArenaRun.cs:440-458 | the recursion through EndShop, EndRound and StartRound terminates, and leaves the invariant |
| `ArenaTransitions.EndShop` | src/OpenVersus.Server.Core/Arenas/ArenaRun.cs:461-473 | bots' matches are decided and, with all decided, the round ends; the invariant is kept |
| `ArenaTransitions.EndRound` | src/OpenVersus.Server.Core/Arenas/ArenaRun.cs:533-574 | the round's end, and whatever follows it in the same call, terminates and leaves the invariant |
| `ArenaTransitions.StartRound` | src/OpenVersus.Server.Core/Arenas/ArenaRun.cs:577-584 | the next round exists within the horizon, and starts with the invariant |
| `ArenaTransitions.NextRoundOpens` | src/OpenVersus.Server.Core/Arenas/ArenaRun.cs:577-609 | with two teams or more left, all healthy, the next round's number is within the horizon, one nearer to it |
| `ArenaTransitions.RoundEndKeeps` | src/OpenVersus.Server.Core/Arenas/ArenaRun.cs:535-555 | after a round either every team is out (the last one crowned), or two or more go on, all with health above 0 |
| `ArenaTransitions.SettleKeeps` | src/OpenVersus.Server.Core/Arenas/ArenaRun.cs:508-530 | a settled match keeps the invariant, changes only its own two teams and pairing, names the winner the reports and connections say, and raises no health |
| `ArenaTransitions.DecideBotsKeeps` | src/OpenVersus.Server.Core/Arenas/ArenaRun.cs:461-468 | deciding the bots' matches decides exactly those, each once, and leaves every match with a player open |
| `ArenaTransitions.SettleOpenKeeps` | src/OpenVersus.Server.Core/Arenas/ArenaRun.cs:409-415 | after the match deadline every pairing is decided, those decided before exactly as they were |
| `ArenaTransitions.PaidKeeps` | src/OpenVersus.Server.Core/Arenas/ArenaRun.cs:557-566 | the round's pay changes nothing of a player but coins, keeps the invariant, and leaves no balance negative (see RoundPays for how much) |
| `ArenaTransitions.OpenedKeeps` | src/OpenVersus.Server.Core/Arenas/ArenaRun.cs:440-457 | an opened shop leaves the invariant, and every player still in with a shop that is not done |
| `ArenaTransitions.NobodyShops` | src/OpenVersus.Server.Core/Arenas/ArenaRun.cs:443-448 | with no player left in, every player's shop is done already |
| `ArenaPairing.PairedKeeps` | src/OpenVersus.Server.Core/Arenas/ArenaRun.cs:588-609 | any shuffle gives a perfect matching of the teams in: ceil(n/2) pairings, a mirror exactly when n is odd, none decided, and the invariant kept |
| `ArenaPairing.ShuffleOrders` | src/OpenVersus.Server.Core/Arenas/ArenaRun.cs:590-591 | whatever the shuffle, each team in is in the order once and nobody else is |
| `ArenaPairing.PartnersMeet` | src/OpenVersus.Server.Core/Arenas/ArenaRun.cs:593-608 | partners along the order are partners of each other; only the last of an odd order has none |
| `ArenaPairing.PairedHistories` | src/OpenVersus.Server.Core/Arenas/ArenaRun.cs:603-607 | opponent histories stay symmetric round by round, with one mirror a round at most |
| `ArenaPairing.PairedPairing` | src/OpenVersus.Server.Core/Arenas/ArenaRun.cs:595-602 | side A has a player whenever the pairing does, the match id exists exactly then, and both sides' last opponent is the other |
| `ArenaPairing.LossesLimited` | src/OpenVersus.Server.Core/Arenas/ArenaRules.cs:113-118 | no team ever has more losses than (starting health - 1) / smallest loss + 1, and a team still healthy can take one more |
| `ArenaPairing.HorizonAhead` | src/OpenVersus.Server.Core/Arenas/ArenaRun.cs:492-504 | while any team is healthy the losses counted are below teams x loss limit |
| `ArenaPairing.RoundCounted` | src/OpenVersus.Server.Core/Arenas/ArenaRun.cs:533-555 | when two teams are left after a round, at least as many losses were taken as rounds were played |
| `ArenaPairing.NextRound` | src/OpenVersus.Server.Core/Arenas/ArenaRun.cs:577-580 | a round that leaves two healthy teams is ready to be paired again, within the horizon |
| `ArenaRounds.WentOutKeeps` | src/OpenVersus.Server.Core/Arenas/ArenaRun.cs:535-542 | after those at 0 health or below went out, only final ranks differ, every team in is healthy, and the invariant is kept |
| `ArenaRounds.WentOutReranks` | src/OpenVersus.Server.Core/Arenas/ArenaRun.cs:535-542 | exactly the teams in at 0 health or below go out, and take the ranks from just below those left on, the healthiest first, equals by index |
| `ArenaRounds.WentOutRanked` | src/OpenVersus.Server.Core/Arenas/ArenaRun.cs:535-540 | those who go out take the ranks below those left, healthier ones better, and above everyone who was out before |
| `ArenaRounds.CrownedKeeps` | src/OpenVersus.Server.Core/Arenas/ArenaRun.cs:543-555 | with one team left at most, it is ranked first and everyone is out |
| `ArenaRounds.OutNowInOrder` | src/OpenVersus.Server.Core/Arenas/ArenaRun.cs:535 | those going out are listed once each, the healthiest first, equals by index |
| `ArenaRounds.ByLifeInOrder` | src/OpenVersus.Server.Core/Arenas/ArenaRun.cs:535 | ordering by health is sorted and stable |
| `ArenaResults.ResolvedKeeps` | src/OpenVersus.Server.Core/Arenas/ArenaRun.cs:478-530 | deciding a match keeps the matching, the ranks, every record and the count of losses; only its two teams change, both in |
| `ArenaResults.RecordedKept` | src/OpenVersus.Server.Core/Arenas/ArenaRun.cs:478-504 | one more result extends the round-by-round explanation of a team's record, streaks and health |
| `ArenaResults.LossCounted` | src/OpenVersus.Server.Core/Arenas/ArenaRun.cs:478-524 | deciding a pairing of two teams adds a loss to at least one of them, so that a round whose first pairing is decided counts |
| `ArenaInvariant.SettleResolves` | src/OpenVersus.Server.Core/Arenas/ArenaRun.cs:508-530 | a match's end is one verdict: the reports' side, else the players' side against bots (the bots if the players are gone), else both lose; and each side whose players are all gone is emptied |
| `ArenaMoney.RoundPays` | src/OpenVersus.Server.Core/Arenas/ArenaRun.cs:557-563 | each player in gains interest, the round's coins, and a win's coins exactly if their team's win streak is running; nobody's coins fall and nobody else is paid |
| `ArenaMoney.WonIsStreak` | src/OpenVersus.Server.Core/Arenas/ArenaRun.cs:559-562 | a team is the winner of some pairing of the round exactly when its win streak is running |
| `ArenaMoney.RerollSettles` | src/OpenVersus.Server.Core/Arenas/ArenaRun.cs:250-261 | a reroll is taken exactly when the player may pick and can pay; it costs its price at once and offers min(count, roster) fighters of the roster, touching nobody else |
| `ArenaMoney.PicksSettle` | src/OpenVersus.Server.Core/Arenas/ArenaRun.cs:267-303 | a fighter taken is one the player was offered: the one asked for at no charge, or a random one with the bonus; an absent player gets one without it |
| `ArenaPicks.SelectLeaves` | src/OpenVersus.Server.Core/Arenas/ArenaRun.cs:267-291 | a pick is taken exactly from a player still to pick, for Random or a fighter of their offer; it leaves them that fighter (or the one drawn from the offer, with the bonus), in the skin asked for if it is the fighter's and the fighter's first otherwise, no offer, and nobody else changed; the shop opens, bots given fighters, exactly if everyone else in had picked |
| `ArenaPicks.SelectAbsentLeaves` | src/OpenVersus.Server.Core/Arenas/ArenaRun.cs:294-303 | the same for an absent player: one drawn from their offer, without the bonus |
| `ArenaAnswers.TickLeaves` | src/OpenVersus.Server.Core/Arenas/ArenaRun.cs:385-421 | a deadline is acted on exactly once it has passed: every player without a fighter is given one of their offer and the shop opens; every open shop is closed with nothing bought; the next round is begun |
| `ArenaAnswers.CheckinLeaves` | src/OpenVersus.Server.Core/Arenas/ArenaRun.cs:364-374 | a check-in is taken exactly from a player in, once a round, while it is shopped, played or over; it marks that player and nothing else, except the last one once the round is over: the next round begins |
| `ArenaMoney.PickStays` | src/OpenVersus.Server.Core/Arenas/ArenaRun.cs:428-458 | what a pick left a player is still theirs when the last pick opened the shop |
| `ArenaMoney.OffersFighters` | src/OpenVersus.Server.Core/Arenas/ArenaRun.cs:669-670 | an offer is min(count, roster) fighters of the roster |
| `ArenaMoney.ShopShows` | src/OpenVersus.Server.Core/Arenas/ArenaRun.cs:450-454 | each player in finds the ruled number of pages, each full of different catalog items with a weight this round; everyone else keeps what they had |
| `ArenaShop.BuyKeeps` | src/OpenVersus.Server.Core/Arenas/ArenaRun.cs:613-648 | a purchase keeps the inventory's closed form; it happens exactly when the item can be paid and a slot can take it, and then lowers coins plus resale value by exactly cost - cost / 2 |
| `ArenaShop.SellKeeps` | src/OpenVersus.Server.Core/Arenas/ArenaRun.cs:650-659 | a sale empties its slot in place, keeps the form, and keeps coins plus resale value |
| `ArenaShop.NoListProfits` | src/OpenVersus.Server.Core/Arenas/ArenaRun.cs:314-325 | no list of transactions profits: coins plus resale value falls by exactly what its purchases lose |
| `ArenaShop.TransactAll` | src/OpenVersus.Server.Core/Arenas/ArenaRun.cs:314-325 | any list of transactions keeps the inventory's form (slot count, no slug twice, level within the table, resale value = copies x half the cost) and a balance of 0 or more |
| `ArenaTrades.TransactTrades` | src/OpenVersus.Server.Core/Arenas/ArenaRun.cs:613-659 | each transaction, slot by slot: a purchase takes the item on the page into the slot that holds it (experience, or a level once there is enough) or the first empty one, at its cost, and happens if and only if it can; a sale empties its slot and pays what the slot says |
| `ArenaAnswers.ShopClosedLeaves` | src/OpenVersus.Server.Core/Arenas/ArenaRun.cs:306-329 | a closing shop is taken exactly from a player whose shop of the round is open; it pays for the rerolls and then settles each transaction in the order given, changing nobody else, and the shop is over exactly if everyone else's was done; if the rerolls' price fits 31 bits the player is left with no more than they had, coins and resale together |
| `ArenaAnswers.ShopAbsentLeaves` | src/OpenVersus.Server.Core/Arenas/ArenaRun.cs:332-341 | the same with nothing bought |
| `ArenaShop.RerollsNeverPay` | src/OpenVersus.Server.Core/Arenas/ArenaRun.cs:313 | in 32-bit arithmetic a reroll charge adds no coins if and only if its wrapped price is not negative (or the sum wraps again); below 2^31 it is the plain subtraction floored at 0 |
| `ArenaShop.RerollsCanPay` | src/OpenVersus.Server.Core/Arenas/ArenaRun.cs:313 | an input for which the wrapped charge does add coins: 0x60000000 rerolls at 2 |
| `ArenaItems.RollsPerItem` | src/OpenVersus.Server.Core/Arenas/ArenaItems.cs:48-52 | of the total's rolls exactly Weight(round) fall on each remaining item |
| `ArenaItems.Walk` | src/OpenVersus.Server.Core/Arenas/ArenaItems.cs:48-52 | the walk always finds an item, of positive weight, where the roll first drops below zero |
| `ArenaItems.Pick` | src/OpenVersus.Server.Core/Arenas/ArenaItems.cs:48-52 | lowering the roll item by item stops at the place the walk names |
| `ArenaItems.Pages` | src/OpenVersus.Server.Core/Arenas/ArenaItems.cs:38-59 | the nested loops draw what the page function says |
| `ArenaItems.PagesShow` | src/OpenVersus.Server.Core/Arenas/ArenaItems.cs:38-59 | every page has min(perPage, offered) different items of the catalog, all with a weight this round |
| `ArenaDraws.PagesDrawn` | src/OpenVersus.Server.Core/Arenas/ArenaItems.cs:38-59 | the k-th item of every page is the one whose share of the total weight its roll falls in, of the items that have a weight in the round (the first round's plus so much a round, never below zero) and are not on the page yet, in catalog order |
| `ArenaItems.OfFinds` | src/OpenVersus.Server.Core/Arenas/ArenaItems.cs:32 | a catalog slug names its own item |
| `ArenaRunObject.ArenaRun.Start` | src/OpenVersus.Server.Core/Arenas/ArenaRun.cs:226-247 | in place, team by team: the run is the start of BegunKeeps and BegunLeaves |
| `ArenaRunObject.ArenaRun.Select` | src/OpenVersus.Server.Core/Arenas/ArenaRun.cs:267-291 | in place: the invariant kept, state and answer those of the Select function (see SelectLeaves) |
| `ArenaRunObject.ArenaRun.RerollCharacters` | src/OpenVersus.Server.Core/Arenas/ArenaRun.cs:250-261 | in place: state and answer those of RerollCharacters (see RerollSettles) |
| `ArenaRunObject.ArenaRun.SelectAbsent` | src/OpenVersus.Server.Core/Arenas/ArenaRun.cs:294-303 | in place: state and answer those of SelectAbsent (see SelectAbsentLeaves) |
| `ArenaRunObject.ArenaRun.ShopClosed` | src/OpenVersus.Server.Core/Arenas/ArenaRun.cs:306-329 | in place, transaction by transaction: state and answer those of ShopClosed (see ShopClosedLeaves) |
| `ArenaRunObject.ArenaRun.ShopAbsent` | src/OpenVersus.Server.Core/Arenas/ArenaRun.cs:332-341 | in place: state and answer those of ShopAbsent (see ShopAbsentLeaves) |
| `ArenaRunObject.ArenaRun.MatchResult` | src/OpenVersus.Server.Core/Arenas/ArenaRun.cs:348-358 | in place: state and answer those of MatchResult (see ResultLeaves) |
| `ArenaRunObject.ArenaRun.Checkin` | src/OpenVersus.Server.Core/Arenas/ArenaRun.cs:364-374 | in place: state and answer those of Checkin (see CheckinLeaves) |
| `ArenaRunObject.ArenaRun.Tick` | src/OpenVersus.Server.Core/Arenas/ArenaRun.cs:385-421 | in place: state and answer those of Tick (see TickLeaves, DeadlineLeaves) |
| `ArenaRunObject.ArenaRun.OpenShop` | src/OpenVersus.Server.Core/Arenas/ArenaRun.cs:440-458 | in place, with the mutual recursion terminating: state and effects those of OpenShop (see OpenShopLeaves) |
| `ArenaRunObject.ArenaRun.EndShop` | src/OpenVersus.Server.Core/Arenas/ArenaRun.cs:461-473 | in place: state and effects those of EndShop (see ShopEndLeaves) |
| `ArenaRunObject.ArenaRun.EndRound` | src/OpenVersus.Server.Core/Arenas/ArenaRun.cs:533-574 | in place, ranking and paying in loops: state and effects those of EndRound (see EndRoundLeaves, EndRoundPays) |
| `ArenaRunObject.ArenaRun.StartRound` | src/OpenVersus.Server.Core/Arenas/ArenaRun.cs:577-584 | in place: state and effects those of StartRound (see StartRoundLeaves) |
| `ArenaRunObject.ArenaRun.Pair` | src/OpenVersus.Server.Core/Arenas/ArenaRun.cs:588-609 | in place, two by two: the pairings and histories of PairRound (see PairedKeeps, StartRoundLeaves) |
| `ArenaRunObject.ArenaRun.Settle` | src/OpenVersus.Server.Core/Arenas/ArenaRun.cs:508-530 | in place: the verdict of Settle (see SettleResolves) |
| `ArenaRunObject.ArenaRun.Decide` | src/OpenVersus.Server.Core/Arenas/ArenaRun.cs:478-490 | in place: the winner and loser of Decide (see RecordedKept) |
| `ArenaRunObject.ArenaRun.Buy` | src/OpenVersus.Server.Core/Arenas/ArenaRun.cs:613-648 | in place: the player and inventory of Buy (see BuyKeeps, TransactTrades) |
| `ArenaRunObject.ArenaRun.Sell` | src/OpenVersus.Server.Core/Arenas/ArenaRun.cs:650-659 | in place: the player and inventory of Sell (see SellKeeps, TransactTrades) |
| `ArenaStore.OneTotalOrder` | src/OpenVersus.Server.Core/Arenas/ArenaRunStore.cs:56-111 | under any interleaving of any number of replicas, crashes and expiry included: the stored run is the result of one total order of accepted transitions from the start, its deadline entry is the record's deadline or absent with it, and no commit's effects are carried out twice or out of order |
| `ArenaEffects.EffectsCarriedOut` | src/OpenVersus.Server.Core/Arenas/ArenaService.cs:338-369 | under any interleaving: every effect of every commit, the start's included, is carried out, or the commit is one replica's that is still at it, or its replica crashed over it; and before a result is acknowledged all effects of the commit that took it are carried out |
| `ArenaStore.ResultCommittedOnce` | src/OpenVersus.Server.Core/Arenas/ArenaService.cs:251-277 | a match's result, delivered however often to however many replicas, is committed once at most |
| `ArenaStore.NoResultLost` | src/OpenVersus.Server.Core/Arenas/ArenaResults.cs:108-170 | a result of a launched match, acknowledged and not given up on while its run lives, was handled on a state the order went through after its publishing; there its match had been decided if and only if the character select was over, and then it stays decided to the last |
| `ArenaStoreRuns.ResultCanBeLost` | src/OpenVersus.Server.Core/Arenas/ArenaResults.cs:144-164 | the events by which the result of any match launched at the start is lost: handled during the character select, it is refused, acknowledged after one delivery, and never handed out again, its match undecided |
| `ArenaStoreRuns.SomeResultLost` | src/OpenVersus.Server.Core/Arenas/ArenaRun.cs:226-247 | there is such a run and such a match: two players against each other |
| `ArenaWholeRun.CannotEnd` | src/OpenVersus.Server.Core/Arenas/ArenaRun.cs:348-358 | a launched match whose proper result cannot be taken is decided already, or its round over, if and only if the character select is over |
| `ArenaStore.StepKeeps` | src/OpenVersus.Server.Core/Arenas/ArenaRunStore.cs:56-111 | every step of a replica (create, read, compare-and-set write, effect, acknowledge, forget, crash) and expiry keeps the whole invariant |
| `ArenaStore.WriteKeeps` | src/OpenVersus.Server.Core/Arenas/ArenaRunStore.cs:83-93 | a write lands only on the record that was read, extends the order by one accepted transition, and disturbs no other replica's commit |
| `ArenaStore.ReadKeeps` | src/OpenVersus.Server.Core/Arenas/ArenaService.cs:251-297 | a read keeps the whole invariant: a delivered result refused is one that cannot be taken on the state that refused it, not before its publishing; a record found gone stays gone |
| `ArenaStore.CarryKeeps` | src/OpenVersus.Server.Core/Arenas/ArenaService.cs:338-369 | carrying out goes through a commit's effects in order, and only its own committer does (EffectsCarriedOut: all of them) |
| `ArenaStore.ResultTaken` | src/OpenVersus.Server.Core/Arenas/ArenaRun.cs:348-358 | a result is accepted exactly when its match can end, and afterwards it cannot |
| `ArenaStore.NothingTakenForGranted` | src/OpenVersus.Server.Core/Arenas/ArenaRunStore.cs:68-95 | what the steps assume of a record and of what a replica holds is true of every state reached |
| `ArenaStoreObject.ArenaRunStore.UpdateAsync` | src/OpenVersus.Server.Core/Arenas/ArenaRunStore.cs:68-95 | the retry loop against other writers: taken, it is the last of the order applied to all before it; refused, it was refused on a run the order went through; given up, every one of ten attempts met another commit; the deadline agrees throughout |
| `ArenaStoreObject.ArenaRunStore.CreateAsync` | src/OpenVersus.Server.Core/Arenas/ArenaRunStore.cs:56-62 | a run is written with its deadline unless one with its id exists, and then nothing is |
| `LinkTheorems.GameIsSentTheLog` | src/OpenVersus.Server.Edge/EdgeSession.cs:260-383 | over any session of link losses, node changes, resumes and interleavings: the logged entries the game was sent are exactly the log's messages from where its sending began up to the cursor, in id order, none missing, none twice; a game that is leaving was sent a first part of them; its close, if any, is the last thing queued |
| `LinkTheorems.GameIsSentTheRest` | src/OpenVersus.Server.Edge/EdgeSession.cs:337-353 | over any session: the messages of no log that were queued for the game are, in order, those the edge received over all its links, with its own pings between, or a first part of them once it is leaving; what was received over a link is a first part of what its node gave it, all of which is queued or held, in order, while the link is open |
| `LinkTheorems.MergedRight` | src/OpenVersus.Server.Realtime/GatewayNode.cs:295-358 | hold, replay and flush merge right: a resumed connection that is not closed has queued the log's messages after the resume's position up to what was read and handled since, each once, in order, no applicable close passed over (FlushedClose says what a close held meanwhile leaves) |
| `LinkTheorems.FlushedClose` | src/OpenVersus.Server.Realtime/GatewayConnection.cs:140-163 | in any session, a held close that ends the flush is the first in the log that applies since the resume's position, and the queue is exactly the log's messages before it if and only if, of what is held before it, no message was logged after it and none logged before it and not replayed is missing |
| `LinkTheorems.FlushOnlyCloses` | src/OpenVersus.Server.Realtime/GatewayConnection.cs:140-163 | a replay's end closes a connection only by such a close, or because a held message finds the queue full |
| `LinkRuns.FlushOvertakes` | src/OpenVersus.Server.Realtime/GatewayConnection.cs:85-97 | a session, event by event, in which a close is held before the message logged before it: the flush ends with that message never queued |
| `LinkTheorems.NeverAGap` | src/OpenVersus.Server.Realtime/GatewayConnection.cs:67-180 | at any moment, closed or not, what a connection queued has no gap and nothing twice |
| `LinkTheorems.ReplayedClose` | src/OpenVersus.Server.Realtime/GatewayNode.cs:323-334 | a close met in the log ends the queue exactly there: every message before it, none after |
| `LinkTheorems.LiveClose` | src/OpenVersus.Server.Realtime/GatewayHosting.cs:306-342 | a close handled live leaves exactly the messages before it if and only if no message lies between where the two channels had got to, however far back the close's channel is |
| `LinkRuns.CloseOvertakes` | src/OpenVersus.Server.Realtime/GatewayHosting.cs:269-342 | a session, event by event, in which a close on its own channel overtakes a message logged before it, which the closed connection never sends |
| `LinkTheorems.ClaimMisses` | src/OpenVersus.Server.Realtime/GatewayNode.cs:174-196 | over any session, counted from the position the game was given: what it was not sent of the messages up to the cursor is exactly those between that position and where its sending began, so it was sent them all if and only if none lies there |
| `LinkTheorems.PromptClaims` | src/OpenVersus.Server.Realtime/GatewayNode.cs:174-196 | a game is sent every message after its position if at each registration of a new game no message was handed out since its claim |
| `LinkTheorems.ClaimsAtOnce` | src/OpenVersus.Server.Realtime/GatewayNode.cs:174-196 | and so it is in every session in which nothing comes between a claim and its registration |
| `LinkRuns.ClaimCanMiss` | src/OpenVersus.Server.Realtime/GatewayNode.cs:174-196 | a session, event by event, with no loss and no resume, in which a message handed out between the claim and the registration is missed: position 0, cursor 2, the second of two messages sent |
| `LinkPositions.PositionKeeps` | src/OpenVersus.Server.Realtime/GatewayNode.cs:168-202 | every step keeps the position at or before where the sending began, and a received position the head at its link's claim |
| `LinkTheorems.LaterLinksResume` | src/OpenVersus.Server.Edge/EdgeSession.cs:262 | once the game has its id frame a cursor exists and every later link resumes after it |
| `LinkTheorems.PositionsComeFirst` | src/OpenVersus.Server.Edge/EdgeSession.cs:347-349 | a position is only taken while nothing logged was forwarded, before the id frame |
| `LinkTheorems.NothingIsTakenBack` | src/OpenVersus.Server.Edge/EdgeSession.cs:460-476 | what was queued for the game stays, a game being closed gets nothing more, and the handshake is never forgotten |
| `LinkTheorems.BeginsOnce` | src/OpenVersus.Server.Edge/EdgeSession.cs:337-349 | where the sending begins moves only while nothing was sent |
| `LinkTheorems.AskedIsClosed` | src/OpenVersus.Server.Edge/EdgeSession.cs:367-382 | a link that ends after a close closes the game with the last code asked for, after everything queued, and no link follows; one that ends without one leaves the game to be moved |
| `LinkTheorems.OverIsClosed` | src/OpenVersus.Server.Edge/EdgeSession.cs:169-226 | no more links are made only once the game is closing or has ended; the edge pings a game exactly while it is moved after its id frame |
| `LinkProtocol.StepKeeps` | src/OpenVersus.Server.Realtime/GatewayNode.cs:142-202 | every step of the log, the node, the connection, the link, the edge and the game keeps the whole invariant |
| `LinkProtocol.FinishedLink` | src/OpenVersus.Server.Realtime/GatewayConnection.cs:140-163 | the flush after a replay sends each held message exactly if the replay did not, in order |
| `LinkProtocol.FlushSends` | src/OpenVersus.Server.Realtime/GatewayConnection.cs:140-163 | each part of the held items, flushed, continues the queue without gap or repeat, or a close ends it |
| `LinkProtocol.DeliveringLink` | src/OpenVersus.Server.Realtime/GatewayConnection.cs:67-79 | a delivery continues the queue with the next message, is held while a log is replayed, or was sent already and is dropped |
| `LinkProtocol.LastLogged` | src/OpenVersus.Server.Realtime/GatewayConnection.cs:166-180 | a delivery is dropped exactly when the replay, or the claim's head, already covered it |
| `LinkProtocol.ReplayingLink` | src/OpenVersus.Server.Realtime/GatewayNode.cs:315-349 | one replayed entry continues the queue, is passed over, or closes it |
| `LinkProtocol.ReceiveKeeps` | src/OpenVersus.Server.Edge/EdgeSession.cs:337-353 | what the edge does with a frame keeps the game's messages and the cursor in step with the log |
| `LinkProtocol.AttachKeeps` | src/OpenVersus.Server.Edge/EdgeSession.cs:262-293 | a new link, at whatever place its node's subscriptions are, keeps the invariant |
| `GatewayConnections.CallsTidy` | src/OpenVersus.Server.Realtime/GatewayConnection.cs:60-266 | every call keeps a queue in which a close comes last, and once a close was asked for nothing more is queued (QueueIsTheStream says what is) |
| `GatewayConnections.OneClose` | src/OpenVersus.Server.Realtime/GatewayConnection.cs:235-250 | at most one instruction to close is ever queued, followed only by the link's own close |
| `GatewayStreams.DeliveryAdds` | src/OpenVersus.Server.Realtime/GatewayConnection.cs:67-79 | a delivery on an open connection that holds nothing back, with room, adds exactly its own frame: the message as it is on a game's own socket, on a link logged or not; one at or below the last logged sent adds nothing |
| `GatewayStreams.QueueIsTheStream` | src/OpenVersus.Server.Realtime/GatewayConnection.cs:60-180 | over any calls from a new connection: while it is open it has queued exactly the frames of everything it was given, replayed and held included, in order, and holds the rest; once closing, a first part of them |
| `GatewayStreams.OwnSocketSends` | src/OpenVersus.Server.Realtime/GatewayConnection.cs:60-180 | a game's own socket: every message sent, delivered or replayed, as it is, in order, or a first part once it is closing |
| `GatewayConnectionObject.GatewayConnection.EndReplay` | src/OpenVersus.Server.Realtime/GatewayConnection.cs:140-163 | in place, item by item: the connection is the flush of what was held (see FlushSends, QueueIsTheStream) |
| `EdgeSessions.ReceiveAllTidy` | src/OpenVersus.Server.Edge/EdgeSession.cs:317-353 | any frames of a link keep the game's queue: closed once at most, nothing after, nothing taken back |
| `EdgeSessionObject.EdgeSession.ReadLink` | src/OpenVersus.Server.Edge/EdgeSession.cs:310-378 | the frame loop in place: the edge is what its frames make of it, and the last close asked for is carried out at the link's end |
| `EdgeSessionObject.EdgeSession.WriteGame` | src/OpenVersus.Server.Edge/EdgeSession.cs:478-508 | the writer sends the queue in order and stops at the first close |
| `LobbyCodes.OneCodePerLobby` | src/OpenVersus.Server.Core/Arenas/ArenaLobbyService.cs:596-623 | under any interleaving of asks over any lobbies: a lobby's code names that lobby, all codes answered for a lobby are the same one, and when its asks are all answered it has at most that one entry |
| `LobbyCodes.DeletesOwnDraw` | src/OpenVersus.Server.Core/Arenas/ArenaLobbyService.cs:617-619 | an ask deletes only its own draw, which is no lobby's code and no other ask's draw |
| `LobbyCodes.NoCodeMeansTaken` | src/OpenVersus.Server.Core/Arenas/ArenaLobbyService.cs:604-622 | under any interleaving: an ask is answered with no code only after five draws of its own, every one of them taken |
| `LobbyCodes.RereadFinds` | src/OpenVersus.Server.Core/Arenas/ArenaLobbyService.cs:619 | the read after losing always finds the code it lost to |
| `LobbyCodes.StepKeeps` | src/OpenVersus.Server.Core/Arenas/ArenaLobbyService.cs:596-623 | every step of every ask, of custom lobbies, and a crash keeps the invariant |
| `LobbyCodes.AlwaysKept` | src/OpenVersus.Server.Core/Arenas/ArenaLobbyService.cs:596-623 | a lobby's code, once set, never changes |
| `LobbyCodes.CodeStore.LobbyCodeAsync` | src/OpenVersus.Server.Core/Arenas/ArenaLobbyService.cs:596-623 | one ask against one whole rival ask between its two writes: an answer is the lobby's code, no answer means all five draws were taken, and only the lobby's own code is ever added (OneCodePerLobby has every interleaving) |
| `PlayerRecords.SaveReproduces` | src/OpenVersus.Server.Core/Access/PlayerRecord.cs:140-253 | after a load and any calls, the update one save sends turns the stored document into the one in memory apart from the version, which it raises for a push or an assigned array; sending nothing means nothing differs |
| `PlayerRecords.QuietSave` | src/OpenVersus.Server.Core/Access/PlayerRecord.cs:196-209 | a record with no change and no default sends nothing |
| `PlayerRecords.OthersKept` | src/OpenVersus.Server.Core/Access/PlayerRecord.cs:219-252 | fields the update does not name keep what others stored meanwhile, and pushes come after theirs |
| `PlayerRecords.SecondArraySave` | src/OpenVersus.Server.Core/Access/PlayerRecord.cs:237-252 | a second save of an assigned array finds the document if and only if the first save did not raise the version |
| `PlayerRecords.SecondSaveLost` | src/OpenVersus.Server.Core/Access/PlayerRecord.cs:237-252 | a stored document and two assigned arrays, saved one after the other, for which the second save finds no document |
| `PlayerRecords.LoadTracks` | src/OpenVersus.Server.Core/Access/PlayerRecord.cs:43-57 | after a load every field of the schema is there; those given a default are exactly the ones that were missing, with the schema's value, and every stored field is as stored |
| `PlayerRecords.CallsTrack` | src/OpenVersus.Server.Core/Access/PlayerRecord.cs:140-190 | any Set, SetArray and Push keep every field either as stored or named with its change (FieldAfter says what a field holds) |
| `PlayerCalls.FieldAfter` | src/OpenVersus.Server.Core/Access/PlayerRecord.cs:140-190 | after any calls a field holds what it was last assigned, or held before them all, followed by what was pushed to it since; a push to anything but an array changes nothing |
| `PlayerCalls.SetLeaves` | src/OpenVersus.Server.Core/Access/PlayerRecord.cs:140-153 | a Set leaves the field with the value and every other field as it was |
| `PlayerCalls.SetArrayLeaves` | src/OpenVersus.Server.Core/Access/PlayerRecord.cs:160-169 | and a SetArray the field with the array |
| `PlayerCalls.PushLeaves` | src/OpenVersus.Server.Core/Access/PlayerRecord.cs:175-190 | a push is taken exactly if the field holds an array; it appends the value there and to what the next save pushes, and touches no other field |
| `PlayerCalls.PushesWait` | src/OpenVersus.Server.Core/Access/PlayerRecord.cs:175-190 | after any calls the next save pushes to each field what was pushed to it and taken, in order |
| `PlayerCalls.SecondSaveReproduces` | src/OpenVersus.Server.Core/Access/PlayerRecord.cs:196-253 | a second save on the record, if it finds the document, turns what the first left into what is in memory, apart from the version: nothing of the first is sent again |
| `PlayerRecordObject.PlayerRecord.Load` | src/OpenVersus.Server.Core/Access/PlayerRecord.cs:43-57 | in place: the record of Load, defaults in recorded order |
| `PlayerRecordObject.PlayerRecord.Set` | src/OpenVersus.Server.Core/Access/PlayerRecord.cs:140-153 | in place: the record of Set (see SetLeaves) |
| `PlayerRecordObject.PlayerRecord.Push` | src/OpenVersus.Server.Core/Access/PlayerRecord.cs:175-190 | in place: the record of Push, refused where there is no array (see PushLeaves) |
| `PlayerRecordObject.PlayerRecord.SaveAsync` | src/OpenVersus.Server.Core/Access/PlayerRecord.cs:196-253 | the update sent is SaveOf's (see SaveReproduces); what was sent is cleared, a refused save clears nothing |
| `EmptyTables.RepairUndoes` | src/OpenVersus.Server.Core/CustomLobbies/CustomLobbyService.cs:1294-1332 | repairing cjson's image gives a document back if and only if its empty arrays stand only under array keys and no empty object stands under one |
| `EmptyTables.RepairOnce` | src/OpenVersus.Server.Core/CustomLobbies/CustomLobbyService.cs:1294-1332 | the repair is idempotent |
| `EmptyTables.RepairSettles` | src/OpenVersus.Server.Core/CustomLobbies/CustomLobbyService.cs:1294-1332 | a document faithful to its keys is left as it is by the repair |
| `EmptyTables.FixEmptyTables` | src/OpenVersus.Server.Core/CustomLobbies/CustomLobbyService.cs:1294-1332 | the loops over entries with their recursion compute the repair (see RepairUndoes) |
| `EmptyTables.UnderAMapKey` | src/OpenVersus.Server.Core/CustomLobbies/CustomLobbyService.cs:156-160 | a document the repair cannot give back: an empty list under a map's key |

## Left out

- Redis, Mongo, websockets, HTTP, logging, hosting and JSON and Hydra encodings: commands are steps on maps, messages and frames are opaque values.
- Timers, pings from a node, keep-alives and their time-outs, and how long an edge looks for a node: a step that may happen; a time-out or a full queue at the node is a link's loss.
- Usernames, an item's gem, rarity and asset cost, and a team's Index (its position in the list).
- Fractional health scalars: every scalar of the default rules is 1.0, so LifeLost is the round's table entry.
- Coin sums at 32 bits: only the reroll charge, the one product of two free numbers, is modelled with its wrap-around; other sums are unbounded.
- The distribution of random numbers: of a weighted draw's rolls, how many fall on each item is proved.
- The fighters a lobby's bots bring, set on a run between its start and its first write: a run's bots begin without one here and take one when the character select ends.
- ArenaRun.Awaits and the answers AnswerAsync builds: they change nothing.
- ArenaState's JSON documents: only the Rank it computes.
- What carrying out an effect sends or launches (CarryOutAsync's four cases): an effect is carried out, or not yet.
- ArenaStoreObject.ArenaRunStore.UpdateAsync: other replicas' commits come between its read and its write as given lists; ArenaStore has them come at any step.
- LobbyCodes.CodeStore.LobbyCodeAsync: one whole rival ask for the same lobby comes between its two writes; LobbyCodes' own step relation has every interleaving of any asks.
- The record's and the codes' time to live: an expiry is a step of the run's store; the join codes are modelled without one.
- GatewayPresence (the claim of a connection, its release and grace): a claim reads the log's head; a refused resume or a replaced connection is a close by the node.
- What an edge does with a frame that is not an envelope (it lets go of the link): a node here speaks the edge's protocol.
- Which node an edge tries next, and how often (Misconfigured, excluded nodes): any attempt may fail, and giving up closes the game.
- A game's queue after its socket was aborted: nothing more is queued here, and nothing would be read.
- PlayerRecord.New, and the order of fields inside a stored document: a map of fields; the order of a save's $set is kept.
- Equality of database values across number types (an Int32 and an Int64 of the same value).
- ArenaHiss, ArenaMatchmaking, the rest of the lobby services, login, bans, cosmetics, calendars and releases: rules of a branch or two over external stores.
