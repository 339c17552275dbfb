# Phoenix: a Dafny model of the market-making core

This project models six parts of the repository and proves how they behave over whole runs. All
arithmetic on prices, amounts and scores is over exact reals; grid timestamps are integers.

| files | what they model |
|---|---|
| `Bands`, `Position` | the Avellaneda-Stoikov band geometry and the token composition of an LP position |
| `Executors`, `Controller`, `World`, `Safety`, `Decisions` | the Phoenix controller as a transition system in an arbitrary environment, what every run keeps, and exactly what each tick decides |
| `Lives`, `Simulation`, `Quiescence`, `LateFlatten` | whole lives of the simulated executors, these as one such environment, how a halted controller winds down, and a run in which it does so late |
| `PhoenixLP`, `Harness` | the controller object, the executor objects and the tick loop, with fields updated in place |
| `Hawkes` | the cascade detector: marked events, EM fit, composite score |
| `CandleCache`, `CandleAnswers`, `MarketData` | the historical candle cache: range planning, merge, truncation, answers |
| `Trades`, `Performance`, `Profits` | profit and fee accounting over trade fills that aggregation overwrites, and what the profit means in cash |
| `Tracking`, `TrackingRuns`, `TrackingEvents`, `ClientOrderTracker` | order tracking through updates, fills, not-found reports and cache expiry |
| `Fleet`, `FleetRuns`, `RollingBook` | the rolling book of pods |

Each part has the same three layers. The specification is a set of functions on values. The classes
change their fields, lists and maps step by step as the program does, and every method is proved
to compute the specification function of the old state. The lemmas then say what holds of the
specification in every state of every run.

## The environment of the controller

One tick of `World`: the clock advances, every executor evolves, the controller observes the pool,
decides, and its actions are applied. An executor created in a tick is appended to the list and the
controller sees it in the next tick; the exactly-once settlement of a pending flatten rests on this.
`Executors.Evolves` says what an executor may do between ticks: report any non-negative amounts and
fees, fail, fill a swap partly (never beyond its amount); once ended it is frozen, and a position does not
end before it has been seen. Prices, scores, trends, volatilities and latencies are arbitrary.
`World.CfgOk`, a bankroll that is not negative, is all that the claims about runs ask of a configuration.
Runs of the simulated executors also ask that no band has a negative width (`Bands.Spreads`), because their
formulas divide by band prices and a negative width puts emitted bids below zero
(`Bands.EmittedTopPositiveIff`). Only well-formedness of emitted bands, and the floor on what a bid keeps,
need a sound geometry (`Bands.Sound`): positive widths below 100%, a protective zone strictly between 0 and
100%, a positive rebalance percentage. The configuration class enforces none of these.
`Bands.EmittedBidPositiveIffNarrow` and `Bands.LimitsProperIff` show that these bounds are needed.

## Where the code does less than it promises

* A halted controller emits at most one stop and one flatten and has no live position after a bounded
  time, but the flatten itself has no deadline. It is skipped while the held base is worth less than one
  quote unit and sent whenever a later price makes it worth more
  (`Quiescence.QuietIff`); `LateFlatten.FlattenComesLate` builds a simulated run that breaches the
  floor in its fourth tick and flattens any number of ticks later. If the price seen
  once the position is unwound makes the held base worth a unit, everything comes to rest in time
  (`Quiescence.ComesToRest`, `Quiescence.AshesRestInTime`).
* The candle cache stays gap-free except for one family of requests, which straddle the cache, exceed its
  size and end after the newest candle of the exchange (`CandleCache.AlwaysCoherentIff`,
  `CandleCache.HoleExample`). The range-limited branch for requests beyond the end of the cache is commented
  as giving priority to the requested range but serves the cached one (`CandleCache.ForwardMissLags`).
* Aggregating the fills of an order overwrites the first of them, with the plain mean of the prices, in the
  shared list from which fees are computed afterwards. So fees of orders with several fills come out wrong
  by a definite amount, too high or too low depending on the prices (`Trades.ReportedFees`,
  `Trades.FeesGoWrong`), and so does the profit of closed positions, by an amount that is zero when every order
  fills at one price (`Profits.ClosedBookProfit`, `Profits.OnePriceNoError`).
* When the exchange cannot be reached, or neither a start nor a number of records is given, a request is
  answered with the newest cached candles, whatever range was asked for (`CandleAnswers.WithoutExchange`,
  `CandleAnswers.WithoutRange`).
* An order is documented to have failed once it is lost. If a FILLED update was waiting for its fills at that
  moment, the order is reported failed and then completed, is marked FILLED, and remains among the lost
  (`TrackingRuns.LostIsFailedIff`, `TrackingRuns.FailedThenCompletedHappens`). A second FILLED update
  reports completion twice when it brings the first exchange id (`TrackingRuns.SecondFillIsSilentIff`,
  `TrackingRuns.CompletedTwiceHappens`).
* The reported portfolio value adds banked profit, not banked equity, to live equity. So it drops by the
  principal of every pod retired with a known worth (`Fleet.PortfolioValueKeptIff`,
  `FleetRuns.PortfolioValueDrops`); profit and fees are conserved.

## Model

| member | source | states |
|---|---|---|
| Bands.MakeBand | controllers/generic/phoenix_lp.py:421-452 | with a sound configuration, every ask, and every bid with lower < upper, satisfies 0 < lower limit < lower < upper < upper limit and lies wholly on its side of the price, for any inventory, trend and volatility |
| Bands.Width | controllers/generic/phoenix_lp.py:437-439 | the clamped width lies strictly between 0 and 1 |
| Bands.BidEmittedIffCenterPositive | controllers/generic/phoenix_lp.py:443-445 | the guard lower < upper of a bid is exactly the test that the reservation shift has not made the center non-positive |
| Bands.EmittedBidPositiveIffNarrow | controllers/generic/phoenix_lp.py:443-445 | among emitted bids, the lower bound is positive exactly for widths below 1 |
| Bands.LimitsProperIff | controllers/generic/phoenix_lp.py:450-451 | of the bands in the right order, the limits are proper exactly with a protective zone in (0, 100) and a positive rebalance percentage |
| Bands.EmittedTopPositiveIff | controllers/generic/phoenix_lp.py:443-448 | an emitted band has a positive top exactly when its width is positive, and an emitted ask always has a positive bottom |
| Bands.WidthGrowsWithVolatility | controllers/generic/phoenix_lp.py:437-439 | more volatility never narrows the band, clamps included |
| Bands.CenterLeans | controllers/generic/phoenix_lp.py:421-441 | inventory pushes the reservation price away from risk and the trend pulls it along: never higher with more base, never lower with a higher trend |
| Bands.SkewIs | controllers/generic/phoenix_lp.py:433-435 | the skew runs linearly in the share of base from -1 to 1 |
| Bands.SkewAtTheEnds | controllers/generic/phoenix_lp.py:433-435 | without wealth the skew is 0, and with one side in debt it is all the other |
| Bands.WidthIs | controllers/generic/phoenix_lp.py:437-439 | the width is gamma times the variance over the horizon plus twice the spread term whenever that lies between the configured widths, else the nearer of them, the least prevailing |
| Bands.CenterShift | controllers/generic/phoenix_lp.py:433-441 | the reservation price leaves the price by exactly the risk times the share of quote over base plus the lean along the trend |
| Bands.BandIs | controllers/generic/phoenix_lp.py:443-452 | a band reaches exactly to the nearer of the center and five basis points off the price, spans the width relative to that bound, and has its limits at the two percentages off its bounds |
| Position.BidHoldingsNonNegative | research/phoenix_lp_sim.py:299-305 | a bid never holds negative tokens, nor more quote than its deposit |
| Position.AskHoldingsNonNegative | research/phoenix_lp_sim.py:306-311 | an ask never holds negative tokens, nor more base than its deposit |
| Position.BidValueMonotone | research/phoenix_lp_sim.py:299-305 | the worth of a bid never falls when the price rises |
| Position.BidValueAtMostDeposit | research/phoenix_lp_sim.py:299-305 | at every price a bid is worth at most its deposit, and exactly that at or above its top |
| Position.BidFloor | research/phoenix_lp_sim.py:299-305 | a bid of width w with protective zone z keeps at least 2(1-w)(1-z)/(2-w) of its deposit at or above the lower limit, and exactly that at the limit |
| Position.EmittedBidFloor | controllers/generic/phoenix_lp.py:437-451 | every bid the controller emits keeps that floor down to its own lower limit, and is never worth more than its deposit |
| Position.AskValueAtMostHolding | research/phoenix_lp_sim.py:306-311 | at every price an ask is worth at most its initial base, held |
| Position.BidComposition | research/phoenix_lp_sim.py:299-305 | quote in proportion to the height in the band, base bought at the mean of price and top; all quote above the band, none below |
| Position.AskComposition | research/phoenix_lp_sim.py:306-311 | base in proportion to the room left in the band, sold at the mean of bottom and price; all base below the band, none above |
| Executors.SimEvolves | research/phoenix_lp_sim.py:287-332 | whatever a simulated executor does in a step is allowed by the general environment |
| Lives.LeftAlone | research/phoenix_lp_sim.py:287-326 | at every moment of any prices and clock: landed once its latency has passed, closing from the first price out of limits after that, over four seconds later, still holding what that price made it hold |
| Lives.EndsIff | research/phoenix_lp_sim.py:287-332 | on a forward clock a position is over exactly when it landed, was then found at or beyond one of its two limits, and four seconds have passed since |
| Lives.EarnsAsDue | research/phoenix_lp_sim.py:312-318 | it earns on every move that ends inside the band, from landing to its first breach: worth times relative move times twice the fee rate, and nothing otherwise |
| Lives.BidLeaves | research/phoenix_lp_sim.py:299-332 | over its whole life a position funded with quote leaves its fees alone above the band, and below it base bought at the mean of the bounds with all its quote |
| Lives.AskLeaves | research/phoenix_lp_sim.py:306-332 | one funded with base leaves its fees alone below the band, and above it quote at the mean of the bounds for all its base |
| Lives.SwapsOnce | research/phoenix_lp_sim.py:349-380 | a swap moves nothing until its latency has passed, and then everything, once, at the price less slippage |
| Controller.DeployBounds | controllers/generic/phoenix_lp.py:319-322 | a deployment never exceeds the compounding cap nor, with a Kelly fraction of at most one, equity, and is never negative when the cap is not |
| Controller.Build | controllers/generic/phoenix_lp.py:461-473 | a configuration uses one token, is worth at least one quote unit and is funded by the wallet |
| World.SettleOutcome | controllers/generic/phoenix_lp.py:495-503 | adoption and settlement either name the one running executor or fold in exactly the one that has just ended |
| World.ActOutcome | controllers/generic/phoenix_lp.py:522-538 | a pass emits at most one action; a stop, a flatten and a create each happen exactly in, or only in, their own situation |
| World.StepKeepsInv | research/phoenix_lp_sim.py:404-429 | every tick keeps: one running executor, references that point at it and nothing else, a solvent and exact ledger, an alternating log, distinct stops |
| World.RunInv | research/phoenix_lp_sim.py:404-429 | that invariant holds in every state of every run |
| Safety.OneExecutorAtATime | controllers/generic/phoenix_lp.py:498-538 | at any moment at most one executor is running, position or swap |
| Safety.FlattenExcludesPosition | controllers/generic/phoenix_lp.py:379-399 | an outstanding flatten excludes a live or unsettled position, is the running swap and sells exactly the held base |
| Safety.StoppedAtMostOnce | controllers/generic/phoenix_lp.py:522-526 | no executor is ever sent a second stop, and no pass emits two actions |
| Safety.AlwaysSolvent | controllers/generic/phoenix_lp.py:465-473 | held base and bankroll plus held quote are never negative in any run, nor is equity at any price |
| Safety.LedgerIsExactlyOnce | controllers/generic/phoenix_lp.py:329-375 | the ledger equals the fold over all ended, unfailed executors: none skipped, none counted twice |
| Safety.CreatedPositionsAreSound | controllers/generic/phoenix_lp.py:454-493 | every position created in any run is worth a quote unit and funded by the ledger of that moment; with a sound geometry it is well formed around the pool price |
| Safety.LogRecordsTick | controllers/generic/phoenix_lp.py:347-348 | the log of openings and settlements records exactly what each tick opens and settles |
| Safety.RebalanceRate | controllers/generic/phoenix_lp.py:531-537 | between two creates there is one settlement per position opened, and each costs at least the rebalance interval |
| Safety.PanicHysteresis | controllers/generic/phoenix_lp.py:505-518 | between a tick with a panic score and a later create there is a tick with a score at or below resume |
| Safety.PanicHalts | controllers/generic/phoenix_lp.py:510-514 | a panic score always halts the controller in that tick |
| Safety.HaltPersists | controllers/generic/phoenix_lp.py:505-529 | a halted controller stays halted and creates nothing while the score is above resume; terminal states do so at any score |
| Safety.TerminalAbsorbs | controllers/generic/phoenix_lp.py:505-529 | ASHES and VETOED are never left, for each other or otherwise, and nothing is created from them |
| Safety.VetoedRunNeverActs | controllers/generic/phoenix_lp.py:226-239 | a run that is vetoed at any point has never emitted an action and never will |
| Safety.FlipsBeyondHysteresis | controllers/generic/phoenix_lp.py:401-417 | in every run the quoted side flips only in flight and only with coverage beyond the hysteresis around one half |
| Safety.FlipsAreApart | controllers/generic/phoenix_lp.py:401-417 | a flip to the ask and a flip to the bid, anywhere in a run, are more than twice the hysteresis apart in coverage |
| Decisions.ObservedIs | controllers/generic/phoenix_lp.py:187-224 | in every run the controller knows the price and signals it was shown last |
| Decisions.RefusedIs | controllers/generic/phoenix_lp.py:226-239 | a look refuses exactly when the mint ends with a banned suffix or the fee is below the minimum, the suffix spelled out character by character |
| Decisions.VetoedIff | controllers/generic/phoenix_lp.py:226-239 | at any tick of any run the controller is vetoed exactly when its first look at the pool refused it |
| Decisions.PhaseAfterTick | controllers/generic/phoenix_lp.py:505-518 | the whole phase rule over runs: ashes at the floor, else perched on panic or while above resume, else hatching or flying by the sample count; so a perched controller does resume |
| Decisions.StopsAndSellsIff | controllers/generic/phoenix_lp.py:377-399 | in every run a tick stops, and sells the held base, exactly when it must |
| Decisions.OpensIff | controllers/generic/phoenix_lp.py:401-538 | in every run a tick opens a position exactly when it flies, nothing is out, the interval has passed and the funds are worth a unit; with the deposit, side and band of its price, the side flipping exactly beyond the hysteresis |
| Decisions.HoldingsBalance | controllers/generic/phoenix_lp.py:329-375 | in every run the holdings are what executors that ended without failing brought back, fees included, less what went into them |
| Simulation.SimTickValid | research/phoenix_lp_sim.py:404-412 | a tick of simulated executors is a tick of the general environment |
| Simulation.SimStepKeepsInv | research/phoenix_lp_sim.py:404-429 | a simulated tick keeps the invariant and the deadlines of the running executor |
| Simulation.SimRunIsRun | research/phoenix_lp_sim.py:404-429 | everything proved of all runs holds of simulated runs |
| Quiescence.HaltedActsAtMostTwice | controllers/generic/phoenix_lp.py:520-529 | as long as the controller stays halted it emits at most one stop and one flatten, whatever the prices and scores |
| Quiescence.HaltedUnwindsInTime | research/phoenix_lp_sim.py:287-332 | two ticks after the longest latency a halted controller has no live and no unsettled position |
| Quiescence.FlattenIsShortLived | research/phoenix_lp_sim.py:365-370 | an outstanding flatten is brand new or younger than the latency bound |
| Quiescence.ComesToRest | controllers/generic/phoenix_lp.py:377-399 | a controller that stays in panic or ashes and, two ticks after the longest latency, sees what it still holds worth a unit: from then on it never acts, and one latency later nothing runs and nothing is held |
| Quiescence.AshesRestInTime | controllers/generic/phoenix_lp.py:505-529 | with ticks at most d apart, rest comes within the longest latency, one latency and 2d of the tick that breaches the floor, if what is held between the longest latency and 2d more is worth a unit |
| Quiescence.AshesRestInTicks | controllers/generic/phoenix_lp.py:505-529 | with ticks a second or more apart, rest comes within as many ticks as both latencies have seconds, and four more |
| Quiescence.AshesFlattensIff | controllers/generic/phoenix_lp.py:377-399 | in ashes with nothing running, a tick flattens exactly when flattening is on and the held base is worth a quote unit; otherwise it changes no executor |
| Quiescence.QuietIff | controllers/generic/phoenix_lp.py:377-399 | over a run, from ashes with nothing running: no action follows up to a later tick if and only if flattening is off or no price seen until then makes the held base worth a unit |
| Quiescence.FlattenCanComeLate | controllers/generic/phoenix_lp.py:383-385 | from any such world in ashes there are n ticks without action before the flatten, for every n |
| LateFlatten.FlattenComesLate | controllers/generic/phoenix_lp.py:383-385 | for every n a simulated run from the start breaches the floor in its fourth tick, does nothing for n ticks and then flattens: no bound in time exists |
| Phoenix.PhoenixLP.UpdateProcessedData | controllers/generic/phoenix_lp.py:187-201 | an observation sets price and signals and checks the venue the first time only |
| Phoenix.PhoenixLP.CheckVenue | controllers/generic/phoenix_lp.py:226-239 | the suffix loop vetoes exactly the banned mints and the fee tiers below the minimum |
| Phoenix.PhoenixLP.SettleClosedExecutor | controllers/generic/phoenix_lp.py:329-348 | the in-place settlement is the ledger update of the specification |
| Phoenix.PhoenixLP.SettleFlattenExecutor | controllers/generic/phoenix_lp.py:354-375 | pending resolution and swap settlement are the ones of the specification |
| Phoenix.PhoenixLP.PanicFlattenAction | controllers/generic/phoenix_lp.py:377-399 | a flatten of the whole held base is returned, and marked pending, exactly when one is due |
| Phoenix.PhoenixLP.PickQuotingSide | controllers/generic/phoenix_lp.py:401-417 | the side flips with hysteresis around half coverage |
| Phoenix.PhoenixLP.CreateExecutorConfig | controllers/generic/phoenix_lp.py:454-493 | the remembered side and the configuration, or none, are those of the specification |
| Phoenix.PhoenixLP.DetermineExecutorActions | controllers/generic/phoenix_lp.py:495-538 | one pass over the fields computes exactly the transition function the run properties are about |
| HarnessHeap.SimLPExecutor.Step | research/phoenix_lp_sim.py:287-321 | the position object lands, converts, accrues and closes as specified |
| HarnessHeap.SimLPExecutor.Close | research/phoenix_lp_sim.py:323-326 | only the first close request of a running position takes effect |
| HarnessHeap.SimOrderExecutor.Step | research/phoenix_lp_sim.py:365-370 | a swap fills once, completely, at the price less slippage |
| HarnessHeap.Harness.StepExecutors | research/phoenix_lp_sim.py:409-410 | every executor object is stepped once and none disturbs another |
| HarnessHeap.Harness.ApplyActions | research/phoenix_lp_sim.py:414-427 | actions append executors or request closes in order, on the shared objects |
| HarnessHeap.Harness.Tick | research/phoenix_lp_sim.py:404-429 | one pass of the loop over the objects extends a simulated run by exactly one tick |
| HarnessHeap.Harness.Run | research/phoenix_lp_sim.py:404-429 | the loop is a simulated run over the given prices, one second per tick |
| Hawkes.EStep | controllers/generic/phoenix_lp.py:299-308 | the nested loops compute the background and excitation mass of the specification |
| Hawkes.Split | controllers/generic/phoenix_lp.py:302-308 | each event is split into two shares between 0 and 1 that add up to one |
| Hawkes.MassConserved | controllers/generic/phoenix_lp.py:299-308 | after any number of events background plus excitation mass is exactly that number, with at least one unit of background |
| Hawkes.EmFitted | controllers/generic/phoenix_lp.py:296-311 | after every EM round the rate is positive, n is in [0, 0.98] and at most (N-1)/N, and rate and ratio account for exactly N events whenever neither clamp fires, and always with at most 50 events and windows up to 10^9 seconds |
| Hawkes.RatioBounds | controllers/generic/phoenix_lp.py:287-311 | the branching ratio is always in [0, 0.98] |
| Hawkes.RatioPositiveIffSpread | controllers/generic/phoenix_lp.py:299-310 | on sorted events the ratio is positive exactly when they are not all simultaneous |
| Hawkes.WeightDecays | controllers/generic/phoenix_lp.py:302-303 | an event weighs ratio times decay rate at first and fades exponentially |
| Hawkes.LooksBackThirty | controllers/generic/phoenix_lp.py:302-303 | the thirty events before an event excite it, the earlier ones of them each by its weight, and no others |
| Hawkes.TwoEvents | controllers/generic/phoenix_lp.py:293-310 | the first fit of two events in closed form |
| Hawkes.BranchingRatio | controllers/generic/phoenix_lp.py:287-311 | the fitting loop computes the EM iteration of the specification, and 0 below the minimum event count |
| Hawkes.PruneSorted | controllers/generic/phoenix_lp.py:253-255 | dropping from the front removes exactly the events before the cutoff |
| Hawkes.KeptShape | controllers/generic/phoenix_lp.py:206-220 | whatever the order of the events, a sample drops some from the front only and never loses its own burst |
| Hawkes.KeptOk | controllers/generic/phoenix_lp.py:206-255 | with samples at least a burst apart the kept events stay sorted, bounded in number and inside the window |
| Hawkes.KeepsTheYoung | controllers/generic/phoenix_lp.py:206-255 | no event inside the window is dropped while there is room for five hundred; beyond that the oldest go, one for one |
| Hawkes.BurstInOrderIff | controllers/generic/phoenix_lp.py:216-217 | a burst keeps the events in order exactly when it does not start before the newest of them |
| Hawkes.BurstLiftsScore | controllers/generic/phoenix_lp.py:216-220 | a fall of k thresholds lifts the score at once to at least its share of twice the minimum count |
| Hawkes.OneSamplePanicsIff | controllers/generic/phoenix_lp.py:262-266 | the intensity of one burst alone reaches the panic level exactly when that level is at most 0.95 and the burst is at least that share of twice the minimum count |
| Hawkes.MarksAre | controllers/generic/phoenix_lp.py:207-217 | a fall counts as at least k events, for k up to ten, exactly when the price is at or below the last one less k thresholds; never more than ten |
| Hawkes.CountSinceIs | controllers/generic/phoenix_lp.py:263-264 | the recent count is the number of events after the time |
| Hawkes.ScoreIff | controllers/generic/phoenix_lp.py:262-266 | the score reaches a level exactly when the ratio after fifteen rounds does, with enough events, or the recent events are that share of twice the minimum |
| Hawkes.FallReachesLevel | controllers/generic/phoenix_lp.py:207-266 | a fall of twice the minimum number of thresholds reaches any panic level up to 0.95 at once |
| Hawkes.ScoreBounds | controllers/generic/phoenix_lp.py:262-266 | the composite score lies in [0, 0.98] |
| Hawkes.Detector.Sample | controllers/generic/phoenix_lp.py:203-221 | a sample not yet due changes nothing; a due one records the price, adds exactly as many events as the fall spans thresholds of the larger of the percentage and three robust sigmas, at most ten, forgets and rescores; events stay in order when samples are a burst apart |
| CandleCache.SelectWindow | hummingbot/data_feed/market_data_provider.py:575-579 | filtering a window of the grid by time gives the window of the requested times |
| CandleCache.DedupLaw | hummingbot/data_feed/market_data_provider.py:616-619 | dropping duplicates keeps one row of every timestamp |
| CandleCache.SortLaw | hummingbot/data_feed/market_data_provider.py:619-620 | sorting gives the same rows in strictly increasing order |
| CandleCache.MergeTouching | hummingbot/data_feed/market_data_provider.py:616-620 | windows that overlap or touch merge into their hull |
| CandleCache.MergeApart | hummingbot/data_feed/market_data_provider.py:616-620 | windows that do not touch merge with a hole |
| CandleCache.MissKeepsCoherentIff | hummingbot/data_feed/market_data_provider.py:581-635 | a miss keeps the cache a gap-free window exactly when the request does not leave a hole; then it is the newest n candles of the hull of cache and fetch |
| CandleCache.HoleExample | hummingbot/data_feed/market_data_provider.py:585-592 | two concrete calls on a fresh provider after which the cache has a hole |
| CandleCache.HitIsExact | hummingbot/data_feed/market_data_provider.py:573-579 | a full hit returns exactly what filtering the exchange would, newest max_records of it |
| CandleCache.AnswerExactIff | hummingbot/data_feed/market_data_provider.py:637-643 | the answer read from a cached window is exact exactly when the window reaches both ends of the requested candles, or there are none |
| CandleCache.MissIsExactIff | hummingbot/data_feed/market_data_provider.py:581-643 | the answer of a miss is exact exactly when it leaves no hole and the requested candles are none or lie in the newest n candles of the hull of cache and fetch |
| CandleCache.ForwardMissLags | hummingbot/data_feed/market_data_provider.py:585-592 | the forward range-limited branch moves the cache by at most one candle and then does not answer the request |
| CandleCache.QueryKeepsFeedOkIff | hummingbot/data_feed/market_data_provider.py:518-649 | a call keeps the feed coherent, and then also in range and within its size, exactly when it leaves no hole |
| CandleCache.CallsKeepFeedOk | hummingbot/data_feed/market_data_provider.py:518-649 | after any sequence of calls none of which leaves a hole, hits, misses, failures and requests into the future alike, the cache is an increasing gap-free window |
| CandleCache.AlwaysCoherentIff | hummingbot/data_feed/market_data_provider.py:518-649 | the cache is coherent after every call of a sequence if and only if no call leaves a hole in the feed of its moment |
| CandleAnswers.FirstAnswer | hummingbot/data_feed/market_data_provider.py:593-643 | a request to an empty feed is answered with exactly the candles of the range that the exchange has, the newest of them if room or request allow fewer |
| CandleAnswers.FirstAnswerIsExact | hummingbot/data_feed/market_data_provider.py:593-643 | so one for no more candles than the cache has room for is answered in full |
| CandleAnswers.FirstFill | hummingbot/data_feed/market_data_provider.py:593-635 | the feed then reaches back a quarter of its size, at most a thousand candles, before the request |
| CandleAnswers.FirstQueryIsExact | hummingbot/data_feed/market_data_provider.py:537-643 | the same for the first call on a fresh provider, by start or by number of records, with or without an end |
| CandleAnswers.FetchIs | hummingbot/data_feed/market_data_provider.py:581-592 | with a cached window the fetch is the hull while that fits the cache, else its newest part or the part from the start of the cache |
| CandleAnswers.MissThatFits | hummingbot/data_feed/market_data_provider.py:581-643 | a miss whose hull with the cache fits leaves the hull in the cache and is answered in full |
| CandleAnswers.WithoutRange | hummingbot/data_feed/market_data_provider.py:553-555 | with neither a start nor a number of records the answer is the newest 500 cached candles, whatever their time |
| CandleAnswers.WithoutExchange | hummingbot/data_feed/market_data_provider.py:645-649 | when the fetch raises, a miss is answered with the newest cached candles of whatever time |
| MarketData.CandlesFeed.Refill | hummingbot/data_feed/market_data_provider.py:627-635 | clearing and appending row by row leaves the newest rows that fit |
| MarketData.MarketDataProvider.GetCandlesFeed | hummingbot/data_feed/market_data_provider.py:192-216 | a feed is reused exactly when it is large enough, and only this key's feed is replaced |
| MarketData.MarketDataProvider.GetCandles | hummingbot/data_feed/market_data_provider.py:501-516 | the regular path returns the newest records of the feed |
| MarketData.MarketDataProvider.PlanFetch | hummingbot/data_feed/market_data_provider.py:581-600 | the branches over fetch start and end compute the planned range |
| MarketData.MarketDataProvider.Store | hummingbot/data_feed/market_data_provider.py:614-635 | a non-empty fetch leaves the merged, sorted, truncated rows in the feed |
| MarketData.MarketDataProvider.GetHistoricalCandles | hummingbot/data_feed/market_data_provider.py:518-649 | one call on the mutable feeds is the query of the specification, and other keys are untouched |
| Trades.VolumesGain | hummingbot/client/performance.py:184-209 | the accumulated volumes, valued at the closing price, equal the sum of what each trade gained against holding |
| Trades.AggregationConservesAmount | hummingbot/client/performance.py:96-115 | aggregating by order conserves the total amount |
| Trades.MergedAtOnePrice | hummingbot/client/performance.py:103-113 | an order filled at one price keeps that price and all else, and gets the amount of all its fills |
| Trades.FeesAfterAggregation | hummingbot/client/performance.py:227-249 | for any trades, aggregation in place changes the fee total by exactly the sum over first fills of rate * (mean price * total amount - price * amount), so it is right if and only if that is zero |
| Trades.DistinctUnchanged | hummingbot/client/performance.py:96-115 | where no order has two fills, aggregation changes no fill |
| Trades.OnePriceFeesIff | hummingbot/client/performance.py:227-249 | when every order fills at one price the fee total never falls, and is right exactly when no order with a percentage fee has a second fill |
| Trades.FeesGoWrong | hummingbot/client/performance.py:103-113 | concrete orders of two fills whose fees come out too high, too low, and right |
| Trades.ReportedFees | hummingbot/client/performance.py:265-325 | for any trades, reported fees are those of the trades as they came in plus the fee error of each side, none for spot; right if and only if that is zero |
| Trades.ReportedFeesOfDistinct | hummingbot/client/performance.py:265-325 | reported fees are right whenever no order has two fills on a side |
| Trades.OnePriceReportedFeesIff | hummingbot/client/performance.py:265-325 | with one price per order they are never too low, and right exactly for spot trades or when no order with a percentage fee has a second fill on its side |
| Performance.ZipAt | hummingbot/client/performance.py:271-284 | the k-th pair of the zip is the k-th element of each list |
| Performance.RemoveFirst | hummingbot/client/performance.py:84-89 | taking out the first fill with a position drops the head of those fills and leaves the others |
| Performance.PositionOrder | hummingbot/client/performance.py:74-93 | the first open and the first close leave both lists together, or neither does |
| Performance.PairPositions | hummingbot/client/performance.py:269-283 | the alternating loop terminates and pairs the k-th opening buy with the k-th closing sell and the k-th opening sell with the k-th closing buy |
| Performance.DerivativePnl | hummingbot/client/performance.py:130-144 | the listed profits add up to those of the long and of the short pairs |
| Profits.PairsPayCash | hummingbot/client/performance.py:130-144 | for any pairs the profit is the cash received for sells less the cash paid for buys, each opening fill cut to the amount closed |
| Profits.ReportedProfit | hummingbot/client/performance.py:265-285 | for any trades the derivative profit is that cash, over the pairs that merged orders form |
| Profits.ClosedBookProfit | hummingbot/client/performance.py:265-285 | when all positions are closed in full and no fee is deducted, it is the spot profit at whatever closing price plus what aggregation makes up; both agree if and only if that is zero |
| Profits.OnePriceNoError | hummingbot/client/performance.py:96-115 | aggregation makes up no cash when every order fills at one price |
| Profits.SpotProfit | hummingbot/client/performance.py:184-223 | the spot profit is cash received less cash paid, plus the closing value of the base added, less deducted fees |
| Profits.ZipLength | hummingbot/client/performance.py:271-284 | the pairs are as many as the shorter list has fills |
| Profits.DerivativeIff | hummingbot/client/performance.py:177-182 | pairs are formed exactly when on some side there are trades and all of them have a position action |
| Performance.GroupByOrder | hummingbot/client/performance.py:97-101 | groups hold the fills of their order in list order, keys in order of first occurrence |
| Performance.AggregateOrders | hummingbot/client/performance.py:96-115 | exactly the first fill of each order is overwritten, with the mean price and total amount of the group, and those fills are returned |
| Performance.AggregatePositionOrder | hummingbot/client/performance.py:118-128 | both sides are aggregated and neither disturbs the other |
| Performance.PerformanceMetrics.Accumulate | hummingbot/client/performance.py:188-197 | one trade adds to the volumes of its side and its deducted fee |
| Performance.PerformanceMetrics.Preprocess | hummingbot/client/performance.py:184-209 | the loop splits the trades by side and accumulates their volumes |
| Performance.PerformanceMetrics.SetBalances | hummingbot/client/performance.py:305-320 | current minus hold value is the worth of the volumes, whatever the balances |
| Performance.PerformanceMetrics.CalculateTradePnl | hummingbot/client/performance.py:265-285 | trade profit is the spot gain or, for derivatives, the profit over the two zips; derivative fills are left aggregated |
| Performance.PerformanceMetrics.CalculateFees | hummingbot/client/performance.py:227-253 | fees are those of the fills as aggregation left them |
| Performance.PerformanceMetrics.InitializeMetrics | hummingbot/client/performance.py:287-325 | end to end: profit independent of balances, fees on the aggregated fills, total as their difference |
| Tracking.ApplyConcerned | hummingbot/connector/client_order_tracker.py:286-293 | an update moves an active order to the cache exactly when it changes it to a state that is not open |
| Tracking.ReportLostMoves | hummingbot/connector/client_order_tracker.py:233-249 | a report counts, or marks the order failed and moves it, by way of the cache, to the lost orders |
| Tracking.NextKeepsInv | hummingbot/connector/client_order_tracker.py:143-303 | every step keeps the maps disjoint, counts only for active orders and within the limit, active orders open, waiting updates matched to their orders |
| TrackingRuns.RunInv | hummingbot/connector/client_order_tracker.py:143-303 | that invariant holds in every state of every run under fresh ids |
| TrackingRuns.OneWay | hummingbot/connector/client_order_tracker.py:143-151 | an order goes from active to cached or lost and from there out of sight, never back and never from the cache to the lost |
| TrackingRuns.RestartDisjointIff | hummingbot/connector/client_order_tracker.py:143-144 | starting any order, under a used id too, keeps the maps disjoint exactly when its id is neither cached nor lost |
| TrackingRuns.CountIsReports | hummingbot/connector/client_order_tracker.py:232-233 | the count of an active order is the number of not-found reports that reached it |
| TrackingRuns.BecomesLostIff | hummingbot/connector/client_order_tracker.py:229-249 | an order becomes lost exactly by a report while active and unfinished after at least limit others |
| TrackingRuns.LostExactly | hummingbot/connector/client_order_tracker.py:229-249 | an order started unfinished becomes lost exactly with its report number limit + 1 |
| TrackingRuns.LostAfterLimit | hummingbot/connector/client_order_tracker.py:229-249 | such an order has had at most limit reports while active and limit + 1 once lost |
| TrackingRuns.SecondFillIsSilentIff | hummingbot/connector/client_order_tracker.py:276-293 | a second waiting FILLED update reports nothing exactly when it does not bring the first exchange id |
| TrackingRuns.CompletedTwiceHappens | hummingbot/connector/client_order_tracker.py:276-293 | for every limit there is a run from the start that reports one order complete twice |
| TrackingRuns.LostStep | hummingbot/connector/client_order_tracker.py:267-303 | a lost order changes state only when a waiting update for it resumes, which reports it complete |
| TrackingRuns.LostIsFailedIff | hummingbot/connector/client_order_tracker.py:129-133 | a lost order is still marked failed exactly when no waiting update for it has resumed since |
| TrackingRuns.FailedThenCompletedHappens | hummingbot/connector/client_order_tracker.py:276-293 | for every limit there is a run that reports an order failed and then complete and leaves it lost |
| TrackingRuns.LeavesWithEventIff | hummingbot/connector/client_order_tracker.py:423-439 | an order leaving the active ones gets a terminal event in that step exactly when it ended canceled, filled or failed |
| TrackingRuns.TerminalEventEndsTracking | hummingbot/connector/client_order_tracker.py:423-439 | after its terminal event an order is never active again |
| TrackingEvents.FillTotals | hummingbot/core/data_type/in_flight_order.py:351-375 | over any fills each trade counts once for the order it names: both executed amounts grow by the sums of the counted fills, and complete filling is signalled exactly when one of them leaves nothing to eight decimals |
| TrackingEvents.FillAnnouncedIff | hummingbot/connector/client_order_tracker.py:203-219 | a fill is announced exactly when its trade is new to a tracked order and adds a positive amount |
| TrackingEvents.UpdateAnnounces | hummingbot/connector/client_order_tracker.py:393-439 | which creation, cancellation, completion and failure events an update raises, and when, state by state |
| TrackingEvents.StatusRoutes | hummingbot/connector/client_order_tracker.py:267-303 | where a status update goes: ignored, clears a lost order, waits for fills, or sets state and first exchange id |
| TrackingEvents.SearchFinds | hummingbot/connector/client_order_tracker.py:172-198 | a search prefers the client id and misses only if neither id is there |
| TrackingEvents.NotFoundElsewhere | hummingbot/connector/client_order_tracker.py:258-265 | a report for an order that is not active only clears it from the lost |
| OrderTracking.InFlightOrder.UpdateWithOrderUpdate | hummingbot/core/data_type/in_flight_order.py:327-349 | an update sets state and first exchange id, and says whether anything changed |
| OrderTracking.InFlightOrder.UpdateWithTradeUpdate | hummingbot/core/data_type/in_flight_order.py:351-377 | a trade is added once to both executed amounts and may signal complete filling; a repeated or foreign one changes nothing |
| OrderTracking.ClientOrderTracker.StartTrackingOrder | hummingbot/connector/client_order_tracker.py:143-144 | any order object becomes the active one of its id; under a fresh id this is a step of the specification |
| OrderTracking.ClientOrderTracker.StopTrackingOrder | hummingbot/connector/client_order_tracker.py:146-151 | an active order moves to the cache and loses its count; any other id changes nothing |
| OrderTracking.ClientOrderTracker.FetchOrder | hummingbot/connector/client_order_tracker.py:172-184 | the search finds by client id, else by exchange id, among active and cached orders, and misses only if there is none |
| OrderTracking.ClientOrderTracker.ApplyUpdate | hummingbot/connector/client_order_tracker.py:288-293 | updating the shared order object changes the view at its id only |
| OrderTracking.ClientOrderTracker.ProcessOrderUpdate | hummingbot/connector/client_order_tracker.py:267-303 | a status update, up to where it waits, is the step of the specification |
| OrderTracking.ClientOrderTracker.ResumeOrderUpdate | hummingbot/connector/client_order_tracker.py:288-293 | a waiting update acts on the order object it had found, wherever that is filed now |
| OrderTracking.ClientOrderTracker.MarkLost | hummingbot/connector/client_order_tracker.py:234-249 | deleting from the cache finds the key there, and the order object is filed as lost |
| OrderTracking.ClientOrderTracker.ProcessOrderNotFound | hummingbot/connector/client_order_tracker.py:221-265 | a report is the step of the specification, for active, lost and unknown ids |
| OrderTracking.ClientOrderTracker.ProcessTradeUpdate | hummingbot/connector/client_order_tracker.py:203-219 | a fill reaches the order wherever it is filed |
| Fleet.RefillSize | podrunner/fleet.py:426-452 | a refill ends with exactly min(target, pods + newcomers), never fewer than before, and swaps out no more than the stale pods |
| Fleet.RotateSize | podrunner/fleet.py:401-452 | a cycle keeps the book at or below target, and only dead pods make it smaller |
| Fleet.RefillIff | podrunner/fleet.py:401-424 | a cycle refills exactly when rotation is automatic, the cooldown has passed, and fewer pods than the target survive the purge or one of them is stale |
| Fleet.RefillGrows | podrunner/fleet.py:418-452 | a due refill with an empty slot and a pick that is not held and arms leaves more pods than survived, within the target |
| Fleet.NoRefillKeeps | podrunner/fleet.py:411-423 | without a refill exactly as many pods stay as survive |
| Fleet.SwapsFirst | podrunner/fleet.py:448-452 | the stale pods swapped out are the first of the list and the rest keep their order |
| Fleet.RotationConserves | podrunner/fleet.py:331-356 | a cycle leaves live plus banked profit, and live plus banked fees, exactly as they were |
| Fleet.PortfolioValueKeptIff | podrunner/fleet.py:349-356 | the reported portfolio value never rises in a cycle, and is kept exactly when no retired pod had a known worth |
| FleetRuns.PortfolioValueDrops | podrunner/fleet.py:349-356 | a concrete run of one cycle in which the reported value falls from 80 to -120 while profit and fees stay |
| Fleet.PodsConserved | podrunner/fleet.py:413-452 | live plus retired pods grow by exactly the newcomers |
| Fleet.EveryPodAccountedFor | podrunner/fleet.py:413-452 | each marked pod is afterwards in the book or retired, as often as it was, and nothing else is in the book but the newcomers |
| Fleet.OnlyDeadOrStaleRetire | podrunner/fleet.py:411-451 | only dead and stale pods are retired, and no dead pod stays |
| Fleet.ArmIsExhaustive | podrunner/fleet.py:433-446 | a refill stops short of what it wants only when every pick is held, fails to arm, or is in |
| Fleet.BankedAll | podrunner/fleet.py:331-346 | retiring pods banks their profit and fees, counts them, and blacklists them exactly when permanent |
| FleetRuns.SizeNeverExceedsTarget | podrunner/fleet.py:401-452 | in every run the book never exceeds its target |
| FleetRuns.TotalsAreEarned | podrunner/fleet.py:349-356 | over any run, book profit and fees are the sum of what ticks moved: churn hides no loss and makes no profit |
| FleetRuns.StreakIff | podrunner/fleet.py:404-410 | a streak of k means exactly that the last k states seen were idle and not warming up |
| FleetRuns.RunIsHonest | podrunner/fleet.py:404-410 | in every run the stale counter of every pod is its streak |
| FleetRuns.StaleRetirementsAreEarned | podrunner/fleet.py:418-451 | every stale retirement of a run follows at least STALE_CYCLES consecutive idle cycles |
| FleetRuns.RefillsAreSpaced | podrunner/fleet.py:418-423 | two refilling cycles are at least the cooldown apart |
| FleetRuns.NeverRearmed | podrunner/fleet.py:327-329 | in any run with a truthful selection no cycle arms a symbol that has ever fallen |
| FleetRuns.ArmedAreFresh | podrunner/fleet.py:430-446 | nor a symbol that is held or that it arms already |
| FleetRuns.NoRelapse | podrunner/fleet.py:327-329 | so a book that starts without duplicates or fallen tokens never has any |
| FleetRuns.StaleNotRearmed | podrunner/fleet.py:327-344 | with a truthful selection a symbol swapped out as stale is not armed again in that cycle or the 2 * STALE_CYCLES - 1 cycles after it |
| FleetRuns.BlacklistGrows | podrunner/fleet.py:340-342 | the blacklist never loses a token |
| RollingBook.Pod.MarkStale | podrunner/fleet.py:404-410 | warming up or a position resets the counter, anything else raises it |
| RollingBook.Swarm.Retire | podrunner/fleet.py:331-344 | the swarm banks what the pod is worth and bars its symbol for good or for a time |
| RollingBook.Book.RemoveDead | podrunner/fleet.py:413-417 | exactly the dead pods are banked and taken off the list, the others keep their order |
| RollingBook.Book.Arm | podrunner/fleet.py:433-446 | the loop over the picks arms at most the wanted number, skipping held symbols and failures |
| RollingBook.Book.Refill | podrunner/fleet.py:426-452 | newcomers fill the slots, the surplus swaps out the first stale pods |
| RollingBook.Book.Rotate | podrunner/fleet.py:401-452 | one cycle over the shared pod objects is the cycle of the specification |

## Left out

- Simulation rounding and conversions: `Decimal` and `float` are modelled as reals, so digits lost in conversions are not.
- Phoenix.PhoenixLP.UpdateProcessedData: takes sigma, trend, sample count and cascade score as arbitrary inputs of the observation, because log returns, moving averages and RSI are library numerics; the cascade score is modelled on its own in `Hawkes`, where robust sigma is a non-negative input and `exp` any positive function.
- Executor labels: an executor is running or terminated; the display states, order prices and the strategy parameters of configurations are not modelled.
- Stale prices: what the controller observes is arbitrary, so the delay line of the simulated pool is not modelled; neither are the random price paths and latency distributions, which become arbitrary positive prices and bounded latencies.
- Actions seen later than one tick: an executor that becomes visible only after several ticks is outside the environment, because the controller is not written for it.
- The pod's own tick: it drives the same controller and executors as the harness, with a latency per action, which the runs of `Simulation` allow; in the fleet a tick is any change of the reported states.
- Quiescence.HaltedUnwindsInTime: is about simulated executors with bounded latencies; in the general environment an executor may run forever.
- Candle feeds: live websocket appends and feed internals are not part of this model; the exchange is an immutable grid of candles from some first index, and calls are sequential.
- CandleCache.AlwaysCoherentIff: covers cache sizes above zero, because with size zero the source's slicing by the last zero rows keeps all of them.
- Performance.PerformanceMetrics.Preprocess: average prices are not computed, because only displays use them.
- Performance.PerformanceMetrics.CalculateFees: percentage fees only, because flat fees and fees in other tokens go through a rate oracle that is not part of this model.
- Performance.PerformanceMetrics.InitializeMetrics: the same, and without ratios, returns and rounding; trades are database fills.
- Restoring tracked orders from saved states, changing the limit of not-found reports at run time, and the wait and timeout of a FILLED update, which may resume at any later time.
- OrderTracking.ClientOrderTracker.FetchOrder: may find any order with the exchange id, where the program takes the first in dictionary order, because maps here have no order.
- Cache expiry: any cached orders may be dropped between steps; the age and size that decide it are not modelled.
- TrackingRuns.RunInv: runs start every order under a fresh id; what reuse does to the maps is `TrackingRuns.RestartDisjointIff`.
- Symbols of pods: picks and pods are named from different services, so uniqueness is proved only for truthful selections (`FleetRuns.NoRelapse`).
- Pool selection and scoring, logging, status texts, telemetry, CSV and blacklist files, message transport and user interfaces: input, output and presentation.
- Other strategies and connectors, budget checks and hanging orders: they rest on libraries that are not part of this model.
