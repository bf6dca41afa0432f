# Supply-chain game: a verified model

A room of four players runs a supply chain: factory, distributor, wholesaler, retailer. Every
week each player places one order. Goods travel downstream and orders upstream through delay
queues, and each role pays for stock it holds and for orders it owes. This project models that
game and its services, and proves what holds over whole runs.

| module | what it models |
|---|---|
| `Common`, `Sums` | results, errors, roles, and sums of sequences |
| `Scenarios` | scenarios and the compilation of a demand rule into a weekly table |
| `Chain`, `GameSessions` | one week as a function on session values, and the session object that performs it in place over shared pipeline maps |
| `ChainLaws`, `RunLaws` | the invariant of a run; delay laws, the min-plus closed form, its unrolled form, and conservation |
| `TwoRuns`, `Reach` | comparing two runs: how fast a change spreads and which way it pushes; that the bounds are exact |
| `Analytics`, `VarianceLaws`, `ReportLaws` | the one-pass report, what its variance means, and what each of its figures is |
| `Rooms`, `RoomLaws`, `LiveRooms` | the lobby as a function on room values, what each operation does and refuses, and the room object whose seats copies share |
| `WeekDecisions` | snapshots of submitted orders, and the keys they are stored under |
| `Worlds`, `WorldLaws`, `Failures`, `Agreement`, `Traces`, `Games` | every service call as one step on three stores, with writes that may fail; what every run of calls keeps |
| `Outcomes`, `PlayerViews`, `ViewLaws` | when each call succeeds, what it leaves behind, and what a player is shown |
| `MemoryStores`, `Services` | the in-memory stores with their shallow copies, and the services over them, proved to answer as if the stores held values |
| `EventBus`, `EventBusSteps`, `LiveEventBus` | the bounded, lossy event bus: as runs of operations, with overlapping publications, and as the object with its nested map of channels |
| `TabLease` | the lease a browser tab takes on a player |

How it fits together. A `Session` value and the function `Chain.Advanced` are the reference for
one week. `GameSession.AdvanceWeek` shifts the seven queues, settles four nodes and pushes
shipments and orders back, and is proved to be `Advanced` on the values it holds. The laws are
then proved about runs of `Advanced`. One level up, `Worlds.Step` is the reference for a service
call; the methods of `Services.Server` work on shared pipelines and seats and are proved to be
`Step` on the values read out of the stores. A predicate such as `Kept` (of a session) or `Sound`
(of the stores) is what a run is proved to reach; `ChainLaws.RunKept`, `WorldLaws.RunSound` and
`Agreement.RunAgrees` connect it to runs from the start, and `ChainLaws.ExampleRun` gives one.

Expectations that the code does not meet as stated, with the exact condition:

- Sharing between the in-memory stores and their callers is meant to be unobservable. When
  `StartGame` cannot make an id for its session, the roles it has given out are already in the
  stored room's seats. The contents then differ from stores that copy if and only if the room was
  waiting with four players, one of them without a role, and the scenario was found and valid
  (`Services.IdFailureShowsInLobby`; `Services.IdFailureExample` gives the calls of a run that
  ends there). All other runs of changes and reads get the answers of stores that copy
  (`Services.ServeAll`).
- `Validate` and `NewGameSession` are meant to accept only scenarios that can be played. In random
  mode they do not look at the demand table: an empty one
  (`Scenarios.RandomScenarioMayBeUnreadable`) and one with a negative entry
  (`Scenarios.RandomScenarioMayBeNegative`, `ChainLaws.NegativeOrderExample`) both pass. An
  accepted scenario answers every week with a demand that is not negative if and only if it is in
  fixed mode or comes with a non-empty table without negative entries
  (`Scenarios.ValidDemandReadableIff`), and under the same condition its session starts with the
  invariant of a run (`ChainLaws.NewSessionKeptIff`). Compilation establishes the condition, so
  every game that is started has a table with one entry per week (`Games.NextDemandInTable`,
  `Games.GameReport`).
- The lease of a player is kept under a key made of room id and player id with a colon between.
  Keys of different players differ when player ids contain no colon (`TabLease.KeysDiffer`), as
  generated ids do; otherwise they may meet (`TabLease.KeysMayMeet`).

The scenario repository answers an unknown scenario id with the room-not-found error; the model
follows the code.

## Model

| member | source | states |
|---|---|---|
| `Scenarios.ExtendDemand` | internal/domain/scenario.go:128-141 | the loop returns exactly maxWeeks entries: the given ones, cut off or continued with the last |
| `Scenarios.GenerateRandomBlockDemand` | internal/domain/scenario.go:143-164 | the nested loops fill every week, and week i holds the draw of block i / period |
| `Scenarios.MaterializeDemand` | internal/domain/scenario.go:91-108 | compilation as a table of the demand rule, with every refusal |
| `Scenarios.CompileRefusals` | internal/domain/scenario.go:91-97 | an invalid scenario is refused before a game without weeks; nothing else is refused |
| `Scenarios.ValidateRefusals` | internal/domain/scenario.go:33-78 | exactly which scenarios are accepted, and which fault each refusal names, the first one in the source's order |
| `Scenarios.DemandReads` | internal/domain/scenario.go:80-89 | no demand before week one, then the table entry by entry, its last entry for all later weeks |
| `Scenarios.FixedDemandPreserved` | internal/domain/scenario.go:80-108 | in fixed mode the compiled table answers like the original rule in every week of the game |
| `Scenarios.RandomDemandBlocks` | internal/domain/scenario.go:143-164 | in random mode every week is within the bounds and weeks of one block are equal |
| `Scenarios.MaterializedIsValid` | internal/domain/scenario.go:91-108 | a compiled scenario is valid again, has one entry per week, changes nothing but the table, and in random mode stays within the bounds |
| `Scenarios.ValidDelaysAgree` | internal/domain/scenario.go:67-75 | a valid scenario's shipping and production delays are equal and are the length of its goods pipeline |
| `Scenarios.AllResultsDrawn` | internal/domain/scenario.go:144-151 | every sequence of generator results in range is covered by some draws of the model |
| `Scenarios.AllBlocksDrawn` | internal/domain/scenario.go:147-151 | any sequence of values in the range, its ends included, is the demand of the blocks for some draws |
| `Scenarios.ValidDemandReadableIff` | internal/domain/scenario.go:33-89 | an accepted scenario can be read in every week with a demand that is not negative exactly in fixed mode or with a non-empty table without negative entries |
| `Scenarios.RandomScenarioMayBeUnreadable` | internal/domain/scenario.go:54-89 | a concrete scenario that Validate accepts with an empty table |
| `Scenarios.RandomScenarioMayBeNegative` | internal/domain/scenario.go:54-89 | a concrete scenario that Validate accepts with a negative demand |
| `Chain.NodeByRoleIsFirst` | internal/domain/game_session.go:171-179 | the lookup yields the first node of the role, or a zero node of that role when there is none |
| `Chain.ObjectionIff` | internal/domain/game_session.go:91-99 | the role-by-role check passes exactly for four non-negative orders |
| `Chain.AdvanceProblem` | internal/domain/game_session.go:84-99 | a week is accepted exactly in an active session with weeks left and four non-negative orders |
| `Chain.FirstObjection` | internal/domain/game_session.go:91-99 | the objection names the first role in order whose order is missing or negative, and which of the two |
| `Chain.AdvanceRefusals` | internal/domain/game_session.go:84-99 | a session that is not active is refused first, then one without weeks left, then bad orders |
| `Chain.NewSessionRefusals` | internal/domain/game_session.go:39-44 | a non-positive limit is refused before an invalid scenario |
| `GameSessions.Pipelines.Shift` | internal/domain/game_session.go:181-191 | takes the head of one queue of a shared map; an empty or missing queue gives 0 and stays |
| `GameSessions.Pipelines.Append` | internal/domain/game_session.go:193-195 | appends to one queue and leaves the others |
| `GameSessions.GameSession.NewGameSession` | internal/domain/game_session.go:38-81 | refuses as the source does, or makes the initial session with pipelines of its own |
| `GameSessions.GameSession.ShiftProduction` | internal/domain/game_session.go:197-206 | the same for the production queue |
| `GameSessions.GameSession.ShiftGoods` | internal/domain/game_session.go:102-107 | what arrives at the four roles, and the four queues without it |
| `GameSessions.GameSession.ShiftOrders` | internal/domain/game_session.go:108-113 | the retailer's demand and the three orders that arrive, and the queues without them |
| `GameSessions.GameSession.SettleNodes` | internal/domain/game_session.go:115-139 | the loop over the roles yields the four nodes of the week and the sum of their costs |
| `GameSessions.GameSession.CheckDecisions` | internal/domain/game_session.go:91-99 | the loop reports the first objection in role order, and none exactly for acceptable decisions |
| `GameSessions.GameSession.PushOrders` | internal/domain/game_session.go:141-144 | the four orders enter the queues upstream and production |
| `GameSessions.GameSession.PushGoods` | internal/domain/game_session.go:146-148 | the three shipments enter the queues downstream |
| `GameSessions.GameSession.Record` | internal/domain/game_session.go:150-162 | nodes, week, history and, at the last week, the status |
| `GameSessions.GameSession.AdvanceWeek` | internal/domain/game_session.go:83-165 | a refused call changes nothing; an accepted one is the reference week on the values held |
| `ChainLaws.FreshKept` | internal/domain/game_session.go:38-81 | a new session with readable demand satisfies the run invariant |
| `ChainLaws.NewNode` | internal/domain/game_session.go:46-54 | in a new session each role has its first stock and debt, its own id, and nothing else yet |
| `ChainLaws.NewSessionKeptIff` | internal/domain/game_session.go:38-81 | of the sessions NewGameSession makes, those in fixed mode or with a non-empty, non-negative table start with the run invariant, and no others |
| `ChainLaws.NegativeOrderExample` | internal/domain/game_session.go:38-109 | a session NewGameSession makes whose first customer order is negative |
| `ChainLaws.QueuesMoved` | internal/domain/game_session.go:102-148 | in a week each queue loses its head and gains its supplier's shipment or its customer's order |
| `ChainLaws.ArrivalsNonNegative` | internal/domain/game_session.go:101-113 | nothing negative ever arrives |
| `ChainLaws.StepKept` | internal/domain/game_session.go:83-165 | one accepted week keeps the invariant: delay lines, balances, one of stock and backlog zero, numbered history, status |
| `ChainLaws.RunKept` | internal/domain/game_session.go:83-165 | the invariant holds after every run of accepted weeks from a new session, and n weeks reach week n |
| `ChainLaws.ExampleRun` | internal/domain/game_session.go:38-165 | a two-week run that satisfies all of it |
| `RunLaws.GoodsDelayLaw` | internal/domain/game_session.go:102-148 | goods received in week t were shipped upstream, or ordered into production, exactly one delay earlier; before that they are the initial pipeline |
| `RunLaws.OrdersDelayLaw` | internal/domain/game_session.go:108-144 | orders arrive one order delay after they were placed downstream; the retailer sees the week's demand |
| `RunLaws.QueuesAreSuffixes` | internal/domain/game_session.go:181-206 | after n weeks each queue is what entered it without the first n entries, so its length is its delay |
| `RunLaws.TotalsClosed` | internal/domain/game_session.go:101-148 | the running totals read from a history are the recursive min-plus functions of the orders placed |
| `RunLaws.ClosedForm` | internal/domain/game_session.go:101-148 | every recorded node of every week equals the closed one: cumulative shipments are min(I0 + goods in, B0 + orders in), and stock and backlog are the positive and negative part of the net position |
| `RunLaws.PlayRecordsDecisions` | internal/domain/game_session.go:126-158 | the orders in a run's history are the decisions it was played with |
| `RunLaws.LeastIsMinimum` | internal/domain/game_session.go:219-224 | the least of several terms is one of them and at most each |
| `RunLaws.ChainUnrolled` | internal/domain/game_session.go:101-148 | the closed form of every role in every week is one minimum over the stages above it: orders that reached each stage, and production |
| `RunLaws.ShipmentsUnrolled` | internal/domain/game_session.go:101-148 | in every week of a game, the first weeks included, the shipments the history records for any role are that minimum |
| `RunLaws.RetailerTerms` | internal/domain/game_session.go:101-148 | after three shipping delays the retailer's terms are these five: demand, the orders at three suppliers, production |
| `RunLaws.RetailerUnrolled` | internal/domain/game_session.go:101-148 | after three shipping delays the retailer's recorded shipments are the least of the five |
| `RunLaws.GoodsConserved` | internal/domain/game_session.go:101-148 | all stock, goods on the way and production under way equal what there was at first plus production ordered less retailer shipments |
| `RunLaws.OrdersConserved` | internal/domain/game_session.go:101-148 | on each link everything ever ordered has been shipped, is owed, or is still on its way |
| `RunLaws.InventoryBound` | internal/domain/game_session.go:115-148 | no stage ever holds more than the initial goods plus all production |
| `TwoRuns.FactoryChangeGoods` | internal/domain/game_session.go:102-148 | closed totals at a role do not depend on factory orders that cannot have reached it |
| `TwoRuns.FactoryCausality` | internal/domain/game_session.go:102-148 | two games that differ in factory orders from week k on have the same nodes at a role before week k + production delay + one shipping delay per stage |
| `TwoRuns.FactoryReachIsTight` | internal/domain/game_session.go:102-148 | at the factory that week is the first in which the change does show |
| `Reach.FactoryReachIsExact` | internal/domain/game_session.go:102-148 | at every role a changed factory order shows in the first week it can, if each stage above has sold out when it arrives there |
| `Reach.FactoryBoundMet` | internal/domain/game_session.go:102-148 | for any delays, week and role there are two runs from one start in which the factory bound is met |
| `Reach.RetailerReachIsExact` | internal/domain/game_session.go:102-148 | a changed retailer order shows at the wholesaler after exactly the order delay, and at the retailer one shipping delay later if the wholesaler then owes nothing |
| `Reach.RetailerBoundMet` | internal/domain/game_session.go:102-148 | for any delays and week there are two runs from one start in which both retailer bounds are met |
| `TwoRuns.RetailerChangeTotals` | internal/domain/game_session.go:102-148 | closed totals at a role do not depend on retailer orders that cannot have reached it |
| `TwoRuns.RetailerCausality` | internal/domain/game_session.go:102-148 | changed retailer orders never reach distributor or factory, the wholesaler only after the order delay, the retailer only after one shipping delay more |
| `TwoRuns.RaisedTotals` | internal/domain/game_session.go:115-148 | raising factory orders raises no order total and lowers no goods or shipment total |
| `TwoRuns.FactoryMonotone` | internal/domain/game_session.go:115-148 | raised factory orders never lower cumulative shipments or stock and never raise backlog, for any role in any week |
| `TwoRuns.ChangeSpreads` | internal/domain/game_session.go:83-165 | both causality bounds for two runs played from one new session, in terms of their decisions |
| `TwoRuns.MoreProductionHelps` | internal/domain/game_session.go:83-165 | monotonicity for two runs played from one new session, in terms of their decisions |
| `Analytics.SumInts` | internal/domain/analytics.go:100-107 | the loop computes the sum |
| `Analytics.AverageInts` | internal/domain/analytics.go:77-83 | the mean, 0 for no values |
| `Analytics.VarianceInts` | internal/domain/analytics.go:85-98 | the population variance, 0 for no values |
| `Analytics.Accumulate` | internal/domain/analytics.go:38-49 | one pass over all weeks leaves in every per-role map what filtering by that role gives |
| `Analytics.CalculateSessionAnalytics` | internal/domain/analytics.go:21-75 | the report is the one built from filtered series, role by role |
| `ReportLaws.ColumnReads` | internal/domain/analytics.go:40-47 | which figure of a node each column holds |
| `ReportLaws.ReportIs` | internal/domain/analytics.go:51-72 | for every game and role: the role's cost, backlog and orders are the sums of its weeks, its average and variance those of its weeks |
| `ReportLaws.BullwhipIs` | internal/domain/analytics.go:57-62 | the variances by role, and the bullwhip effect as their ratio to the variance of demand, or 0 if demand does not vary |
| `ReportLaws.DemandVarianceIs` | internal/domain/analytics.go:45-51 | the demand variance is that of the orders the retailer received |
| `ReportLaws.ReportTotals` | internal/domain/analytics.go:28-39 | the total is the sum of the weekly totals, and without weeks everything is zero or empty |
| `Analytics.SeriesIsColumn` | internal/domain/analytics.go:38-49 | for a game's history the filtered series has one figure per week, that of the role's node |
| `Analytics.CostsAddUp` | internal/domain/analytics.go:38-49 | the weekly totals add up to the four roles' costs |
| `Analytics.TotalCostSplits` | internal/domain/analytics.go:38-72 | in every kept session the report's total cost is the sum of its four role totals |
| `VarianceLaws.VarianceFormula` | internal/domain/analytics.go:85-98 | n squared times the variance is n times the sum of squares less the squared sum |
| `VarianceLaws.VarianceZeroIff` | internal/domain/analytics.go:85-98 | the variance is never negative, and zero exactly when all values are equal |
| `VarianceLaws.VarianceBound` | internal/domain/analytics.go:85-98 | values in [lo, hi] have variance at most (hi - lo)^2 / 4 |
| `VarianceLaws.DemandIsTablePrefix` | internal/domain/analytics.go:45-47 | the demand a session reports is the start of its demand table |
| `VarianceLaws.ReportedDemandBound` | internal/domain/analytics.go:51-51 | the reported demand variance is bounded by the range of the table |
| `Rooms.RolesProblemIff` | internal/domain/room.go:140-152 | the check of chosen roles passes exactly when they are known and distinct |
| `Rooms.EnoughFreeRoles` | internal/domain/room.go:154-168 | there are exactly as many unused roles as players without one, so the unchecked index stays in range |
| `Rooms.CompletedIsBijection` | internal/domain/room.go:135-173 | after completion four players hold the four roles one to one, and every role already chosen is kept |
| `RoomLaws.JoinRefusals` | internal/domain/room.go:83-97 | joining is refused for an empty name, a started room, a full room, a taken name, in this order, and for nothing else |
| `RoomLaws.JoinedSeat` | internal/domain/room.go:99-102 | the player takes the next seat, connected, and nothing else changes |
| `RoomLaws.ChoiceRefusals` | internal/domain/room.go:108-127 | a choice is refused for a started room, an unknown role, a role held by another, an unknown player, in this order, and for nothing else |
| `RoomLaws.ChosenSeat` | internal/domain/room.go:129-132 | the player's seat gets the role and nothing else changes |
| `RoomLaws.FirstBadSeat` | internal/domain/room.go:140-152 | the refusal names the fault of the first bad seat: an unknown role, or one an earlier seat has |
| `RoomLaws.CompletionRefusals` | internal/domain/room.go:136-152 | roles are completed exactly for four players with known and distinct choices; a wrong number is refused first |
| `RoomLaws.FilledInOrder` | internal/domain/room.go:154-168 | of two seats without roles the earlier gets the role that comes first in the order of the game |
| `RoomLaws.NoChoices` | internal/domain/room.go:135-173 | four players who chose nothing become factory, distributor, wholesaler, retailer in the order they joined |
| `RoomLaws.StartRefusals` | internal/domain/room.go:175-184 | in a reachable lobby a start is refused for a started room or a missing player, and for nothing else |
| `RoomLaws.StartedFields` | internal/domain/room.go:186-190 | active, week one, and only roles change about the seats |
| `RoomLaws.RoleLookedUp` | internal/domain/room.go:203-216 | each seat's id finds that seat's role or its lack of one, and an id without a seat is not found |
| `Rooms.AddKeepsLobby` | internal/domain/room.go:82-105 | joining keeps roles, names and ids distinct and the room within four seats |
| `Rooms.AssignKeepsLobby` | internal/domain/room.go:107-133 | choosing a role keeps this, and the player then has that role |
| `Rooms.StartKeepsLobby` | internal/domain/room.go:175-191 | starting keeps this and leaves every role held |
| `Rooms.StartSucceedsIff` | internal/domain/room.go:175-191 | Start succeeds exactly in a waiting room with four players, and afterwards refuses itself and role changes |
| `Rooms.RoleFound` | internal/domain/room.go:203-216 | a seated player's role is found |
| `Rooms.RoleHolder` | internal/domain/room.go:203-216 | a role that is found is held by a seat with that player id |
| `LiveRooms.LiveRoom.NewRoom` | internal/domain/room.go:66-80 | refuses a non-positive week limit, or makes an empty waiting room with seats of its own |
| `LiveRooms.LiveRoom.AddPlayer` | internal/domain/room.go:82-105 | fills the next shared seat or changes nothing, with the source's four refusals |
| `LiveRooms.LiveRoom.AssignRole` | internal/domain/room.go:107-133 | sets one seat's role or changes nothing, with the source's order of refusals |
| `LiveRooms.LiveRoom.CheckRoles` | internal/domain/room.go:140-152 | the loop finds the first bad role, or the set of used ones |
| `LiveRooms.LiveRoom.EnsureRolesAssigned` | internal/domain/room.go:135-173 | the seats end as the completed ones, or untouched when refused |
| `LiveRooms.LiveRoom.Start` | internal/domain/room.go:175-191 | completed roles, active, week 1; or nothing at all changed |
| `LiveRooms.LiveRoom.FindRole` | internal/domain/room.go:203-216 | the role lookup over the seats |
| `WeekDecisions.TakeSnapshot` | internal/usecase/decision_store.go:17-41 | the loop splits the roles into submitted and pending |
| `WeekDecisions.RolesListed` | internal/usecase/decision_store.go:18-26 | the listed roles are those with (or without) an order, each once, in the order of the game |
| `WeekDecisions.SnapshotShows` | internal/usecase/decision_store.go:17-41 | a snapshot has its room, week and orders, and every role is submitted or pending as it has an order or not |
| `WeekDecisions.ReadyMeansFour` | internal/usecase/decision_store.go:17-41 | submitted and pending make four; ready means every role has an order, and for known roles that is having four orders |
| `WeekDecisions.NatTextReadsBack` | internal/infrastructure/memory/decision_store.go:66-68 | the decimal text of a number reads back as that number |
| `WeekDecisions.KeyInjective` | internal/infrastructure/memory/decision_store.go:66-68 | different rooms or weeks never share a key, whatever a room id contains |
| `WorldLaws.CreateKeeps` | internal/usecase/room_service.go:30-53 | creating a room keeps the stores sound even if the write fails |
| `WorldLaws.JoinKeeps` | internal/usecase/room_service.go:59-89 | so does joining |
| `WorldLaws.AssignKeeps` | internal/usecase/room_service.go:91-113 | so does choosing a role |
| `WorldLaws.StartedSessionSound` | internal/usecase/game_service.go:71-87 | a compiled scenario always passes NewGameSession's checks, and its session is sound with its started room |
| `WorldLaws.StartKeeps` | internal/usecase/game_service.go:59-102 | starting keeps the stores sound, whichever of its two writes fails |
| `WorldLaws.SubmitKeeps` | internal/usecase/game_service.go:104-161 | submitting stores only non-negative orders of known roles, for a week not past the session's |
| `WorldLaws.AdvanceTargetFacts` | internal/usecase/game_service.go:163-184 | the four stored orders past the guard are one per role and all acceptable |
| `WorldLaws.AdvanceKeeps` | internal/usecase/game_service.go:163-216 | advancing keeps the stores sound, whichever of its three writes fails |
| `WorldLaws.StepSound` | internal/usecase/game_service.go:59-216 | every call with any failing writes and fresh ids keeps the stores sound |
| `WorldLaws.RunSound` | internal/usecase/game_service.go:59-216 | the stores are sound after every run of such calls from empty stores |
| `Failures.StepPlaysAtMostOneWeek` | internal/usecase/game_service.go:186-203 | a call leaves a session as it is or plays its next week with the orders stored for that week |
| `Failures.HistoryGrows` | internal/usecase/game_service.go:186-203 | along a run sessions stay, histories only grow, and a played week makes them longer |
| `Failures.WeeksPlayedOnce` | internal/usecase/game_service.go:182-203 | no two calls of a run, retries included, play the same week of a session |
| `Failures.WeekOrigin` | internal/usecase/game_service.go:182-203 | every week of a history was played by one call, from the orders then stored for that week |
| `Failures.NumberedWeeks` | internal/usecase/game_service.go:182-203 | after any run with failing writes the history is numbered 1 to the current week and the room is not ahead of its session |
| `Failures.FaultOutcome` | internal/usecase/game_service.go:92-203 | a call with failing writes is refused as without them, or reports the failure and has left a first part of its writes in their order |
| `Agreement.StepAgrees` | internal/usecase/game_service.go:59-216 | a call whose writes succeed keeps rooms, sessions and decisions in agreement |
| `Agreement.RunAgrees` | internal/usecase/game_service.go:59-216 | after every such run room status and week are the session's, and orders are stored only for the week a running session is about to play |
| `Agreement.RunningSession` | internal/usecase/game_service.go:174-186 | a session with orders stored for its week is active and has weeks left |
| `Agreement.AdvanceSucceedsIff` | internal/usecase/game_service.go:163-203 | AdvanceWeek succeeds exactly when room and session exist and the snapshot is ready; no other refusal is possible |
| `Outcomes.PlayableWeekIs` | internal/usecase/game_service.go:353-358 | the week to play is the one after those recorded, and at most the limit; the session is over when all are recorded |
| `Outcomes.RoomsInStep` | internal/usecase/game_service.go:89-203 | at every point of a run a started room's week, limit, status and scenario are those of its recorded history |
| `Outcomes.CreateOutcome` | internal/usecase/room_service.go:30-53 | a room is made with the id and limit asked for, waiting and empty, or one of two refusals is given |
| `Outcomes.JoinOutcome` | internal/usecase/room_service.go:59-89 | one more connected seat without a role at the end of that room, or the first of six refusals and nothing changed |
| `Outcomes.AssignOutcome` | internal/usecase/room_service.go:91-113 | that seat's role, or the first of five refusals and nothing changed |
| `Outcomes.StartOutcome` | internal/usecase/game_service.go:59-102 | the new session with the compiled scenario chosen and the room opened at week one, or the first of the refusals and nothing changed |
| `Outcomes.SubmitOutcome` | internal/usecase/game_service.go:104-125 | an order is accepted exactly if it is not negative and comes from a seat of a room whose game is on; the refusal in every other case |
| `Outcomes.SubmittedOrders` | internal/usecase/game_service.go:127-160 | an accepted order becomes that seat's role's order for the coming week and leaves all else |
| `Outcomes.AdvanceOutcome` | internal/usecase/game_service.go:163-184 | a week is played exactly if the game is on and every role has an order; the refusal in every other case |
| `Outcomes.PlayedWeek` | internal/usecase/game_service.go:186-215 | that session advanced, the room at the week after or over, those orders gone, and nothing else touched |
| `Outcomes.TablesStay` | internal/domain/room.go:82-191 | over a whole run every room keeps its limit and every player seat, id and name |
| `Traces.QuietStep` | internal/usecase/game_service.go:59-216 | a call that neither submits to a room's game nor plays its week leaves that game alone |
| `Traces.SubmissionStep` | internal/usecase/game_service.go:127-142 | an accepted order sets the pending order of its player's role and nothing else |
| `Traces.AdvanceStepFacts` | internal/usecase/game_service.go:174-203 | a played week uses exactly the pending orders and leaves none pending |
| `Traces.PlayersFixed` | internal/usecase/game_service.go:59-216 | once a room has a game its players and roles stay |
| `Traces.PendingRefinesLog` | internal/usecase/game_service.go:127-142 | at every point of a run the stored order of a player is the last accepted since the last advance, read off the calls alone |
| `Traces.HistoryRefinesLog` | internal/usecase/game_service.go:127-203 | every order in a history is the last one accepted from the role's player before that week's advance and after the previous one |
| `WorldLaws.StartScenarioIff` | internal/usecase/game_service.go:59-77 | a start gets as far as its session's id exactly for a waiting room of four and a known, valid scenario |
| `Games.StartSucceedsExactly` | internal/usecase/game_service.go:59-102 | a start succeeds exactly for a waiting room of four and a known, valid scenario |
| `Games.StepNeverReopens` | internal/domain/room.go:175-191 | a room that has started never waits again |
| `Games.StartsAtMostOnce` | internal/usecase/game_service.go:59-102 | in any run a room starts at most one game |
| `Games.NextDemandInTable` | internal/usecase/game_service.go:71-87 | the week a session can still play has its own entry in the demand table |
| `Games.GameReport` | internal/domain/analytics.go:21-75 | for any game of any run: demand is a prefix of the table, its variance is within the bound of the random range, and costs add up |
| `Games.ReplyReadsBack` | internal/usecase/game_service.go:59-216 | what a reply says can be read back from the stores, and a refused call changed nothing |
| `PlayerViews.OwnAnalytics` | internal/usecase/game_service.go:383-400 | a player's own analytics depend on that role's nodes only |
| `PlayerViews.SameGameView` | internal/usecase/game_service.go:314-342 | the in-game view depends on the player's share only |
| `PlayerViews.ViewIsProjection` | internal/usecase/game_service.go:281-343 | two reachable states with the same room, week, status, scenario id, weekly costs, count of submissions, own nodes and own order show the player the same |
| `ViewLaws.FoundSeat` | internal/usecase/game_service.go:360-368 | a player is found exactly if seated, and the seat found has the id asked for |
| `ViewLaws.OwnSeat` | internal/usecase/game_service.go:360-368 | every seat is found by its own id |
| `ViewLaws.ViewRefusals` | internal/usecase/game_service.go:281-290 | a view is refused exactly for a missing room or a player without a seat in it |
| `ViewLaws.LobbyShows` | internal/usecase/game_service.go:292-307 | before the game: the room, one's own seat, everybody's name, role and connection, and nothing else |
| `ViewLaws.GameShows` | internal/usecase/game_service.go:281-343 | in the game: the same, the week that is on, the count of orders, and one's own order, node, history and part of the report |
| `ViewLaws.PendingOutcome` | internal/usecase/game_service.go:259-279 | pending orders can be read exactly in a started room and are those of the week that is on |
| `MemoryStores.RoomStore.Save` | internal/infrastructure/memory/room_store.go:21-28 | files the room under its id, sharing its seats |
| `MemoryStores.RoomStore.GetByID` | internal/infrastructure/memory/room_store.go:30-40 | a copy that shares the stored seats, or nothing |
| `MemoryStores.SessionStore.Save` | internal/infrastructure/memory/session_store.go:23-31 | files the session and its room index, sharing its pipelines |
| `MemoryStores.SessionStore.GetByID` | internal/infrastructure/memory/session_store.go:33-43 | a copy that shares the stored pipelines, or nothing |
| `MemoryStores.SessionStore.GetByRoomID` | internal/infrastructure/memory/session_store.go:45-60 | the same through the room index |
| `MemoryStores.DecisionStore.Save` | internal/infrastructure/memory/decision_store.go:23-36 | stores the orders under the key of room and week |
| `MemoryStores.DecisionStore.GetByRoomAndWeek` | internal/infrastructure/memory/decision_store.go:38-55 | what was stored under that key |
| `MemoryStores.DecisionStore.DeleteByRoomAndWeek` | internal/infrastructure/memory/decision_store.go:57-64 | removes that key alone |
| `Services.Server.CreateRoom` | internal/usecase/room_service.go:30-53 | answers and ends as the reference step on values |
| `Services.Server.JoinRoom` | internal/usecase/room_service.go:59-89 | the same, although the shared seat is written before the room is saved |
| `Services.Server.AssignRole` | internal/usecase/room_service.go:91-113 | the same for the role written into a shared seat |
| `Services.Server.StartGame` | internal/usecase/game_service.go:59-102 | the same if an id is made; otherwise exactly the roles given out stay behind |
| `Services.Server.SubmitOrder` | internal/usecase/game_service.go:104-161 | the same for a submission |
| `Services.Server.AdvanceWeek` | internal/usecase/game_service.go:163-216 | the same, although the stored session's pipelines move before it is saved |
| `Services.Server.ReadPending` | internal/usecase/game_service.go:259-279 | the snapshot of the session's week, empty when nothing is stored |
| `Services.Server.GetPlayerState` | internal/usecase/game_service.go:281-343 | the player's view of the values |
| `Services.Server.Serve` | internal/usecase/game_service.go:59-343 | any request, a change or a read, is answered as by stores of values |
| `Services.ServeAll` | internal/infrastructure/memory/session_store.go:23-60 | the requests of any run, reads and failed ids included, get the answers and leave the contents of stores that copy everything, but for starts without an id that had roles to give out |
| `Services.IdFailureShowsIff` | internal/usecase/game_service.go:75-82 | a failed id shows exactly if the start passed the room's checks and some player had no role |
| `Services.IdFailureShowsInLobby` | internal/usecase/game_service.go:59-82 | for reachable stores, in terms of what can be checked before the call: a waiting room of four, one without a role, and a known, valid scenario |
| `Services.IdFailureExample` | internal/usecase/game_service.go:75-82 | a run of five calls after which it shows, for any valid default scenario |
| `EventBus.BusStepKept` | internal/infrastructure/memory/room_event_bus.go:22-68 | every operation keeps the invariant of all channels and of the registry |
| `EventBus.BusRunKept` | internal/infrastructure/memory/room_event_bus.go:22-68 | in every run received and buffered events are an in-order part of those published while subscribed, buffers hold at most 16, open channels are the registered ones |
| `EventBus.LostOnlyWhenFull` | internal/infrastructure/memory/room_event_bus.go:26-31 | a subscriber loses an event only when its buffer is full |
| `EventBus.ChannelIsLog` | internal/infrastructure/memory/room_event_bus.go:22-68 | what a subscriber received and has buffered is exactly its log: every event of its room while subscribed, unless 16 were waiting, in order, once, also after closing |
| `EventBus.CancelIsPrivate` | internal/infrastructure/memory/room_event_bus.go:49-65 | a cancel closes its own channel once, changes nothing when repeated, and never touches another subscriber |
| `EventBusSteps.SeenRefines` | internal/infrastructure/memory/room_event_bus.go:22-34 | with overlapping publications, what one channel sees is still a run of whole operations |
| `EventBusSteps.InterleavingKept` | internal/infrastructure/memory/room_event_bus.go:22-68 | order, capacity and registration hold for every interleaving of sends, reads, subscriptions and cancellations |
| `EventBusSteps.TriedOnce` | internal/infrastructure/memory/room_event_bus.go:22-34 | each event published while a subscriber is registered is tried on its channel exactly once |
| `LiveEventBus.Channel.TrySend` | internal/infrastructure/memory/room_event_bus.go:27-30 | appends, or drops when full, and only on an open channel |
| `LiveEventBus.RoomEventBus.PublishRoomEvent` | internal/infrastructure/memory/room_event_bus.go:22-34 | the loop over a map in any order offers the event to exactly the room's channels, none of them closed |
| `LiveEventBus.RoomEventBus.Subscribe` | internal/infrastructure/memory/room_event_bus.go:36-47 | a new open channel under a new id |
| `LiveEventBus.RoomEventBus.Cancel` | internal/infrastructure/memory/room_event_bus.go:49-65 | closes at most its own channel, never a closed one, and drops an empty room |
| `TabLease.PlayerTab.EnsurePlayerLock` | internal/interface/http/static/app.js:746-760 | refused exactly while another tab's lease lasts; otherwise the lease is the tab's for the full time |
| `TabLease.PlayerTab.ReleasePlayerLock` | internal/interface/http/static/app.js:762-770 | removes the tab's own record and leaves any other |
| `TabLease.PlayerTab.StartLockHeartbeat` | internal/interface/http/static/app.js:772-789 | the timer runs exactly if the lease was obtained |
| `TabLease.PlayerTab.StopLockHeartbeat` | internal/interface/http/static/app.js:791-796 | the timer is off |
| `TabLease.PlayerTab.Beat` | internal/interface/http/static/app.js:777-788 | a beat renews, or stops the timer and forgets the session |
| `TabLease.LeaseExcludes` | internal/interface/http/static/app.js:746-770 | after a tab's last success no other tab succeeds within 15000, and the first one to try later does |
| `TabLease.HeartbeatKeepsLease` | internal/interface/http/static/app.js:772-789 | with beats at most 5000 apart every beat succeeds and no other tab ever does |
| `TabLease.ReleaseFrees` | internal/interface/http/static/app.js:762-770 | a release gives up one's own lease and no other, and the next tab to ask gets it at once |
| `TabLease.OwnReleaseFrees` | internal/interface/http/static/app.js:746-770 | so does the release that follows a tab's last success within the TTL |
| `TabLease.KeyExists` | internal/interface/http/static/app.js:741-744 | there is a lease to take exactly when room and player are known |
| `TabLease.KeysDiffer` | internal/interface/http/static/app.js:741-744 | two players never share a lease, as long as player ids have no colon |
| `TabLease.KeysMayMeet` | internal/interface/http/static/app.js:741-744 | with colons in player ids two players may share one |

## Left out

- Concurrent service calls: each call is one atomic step, and the laws about stores are about such steps. The services take no lock per room, so overlapping calls can lose updates.
- Scenarios.DemandForWeek: reading an empty table panics in the program; the precondition excludes it, and `Chain.DemandAt` reads 0 there. No started game reaches this case.
- GameSessions.GameSession.AdvanceWeek: nodes, history, production and the queues inside a pipeline map are values, so sharing of Go slice backing arrays is not modelled; the maps themselves are shared objects. A call that is accepted needs a non-empty demand table, as reading an empty one panics in the program.
- Scenarios.ExtendDemand: a negative number of weeks, and an empty table that would have to be continued, panic in the program and are excluded.
- Scenarios.GenerateRandomBlockDemand: a negative number of weeks panics in the program, and a change period that is not positive never ends; both are excluded.
- Services.ServeAll: replies are the values at the time of the call; what a caller could see later through memory it shares with a reply is not tracked.
- Services.Server.StartGame: the in-memory stores cannot fail; failing writes are modelled in `Worlds`, on stores that hold values.
- LiveEventBus.RoomEventBus.PublishRoomEvent: the object runs one publication at a time; overlapping publications are modelled on values in `EventBusSteps`.
- TabLease.HeartbeatKeepsLease: storage calls are atomic, time never goes back, nothing else writes the record, and an unreadable record counts as none. That a connected tab holds the lease is not claimed: the resume button connects without starting the heartbeat.
- Games.GameReport: averages and variances are over reals, without rounding of floating point, and integers do not overflow.
- The random source is an arbitrary sequence of draws and ids are given with the call, fresh where a lemma says so. Clock, timestamps and log lines are dropped, except for the times of the tab lease.
- Error texts: wrapped and formatted errors are reduced to their kind and, for decisions, the role.
- Room and game events sent by the services, and the plain getters for rooms, sessions, weeks and reports, which return what is stored.
- The Redis stores and event bus, other than as stores of values whose writes may fail as a whole before or after taking effect.
- HTTP routing, JSON, server-sent events, static pages, rendering and the spreadsheet export.
