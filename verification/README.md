# Verified model of the Polymarket arbitrage bot

Dafny proofs about the parts of the bot whose claims reach over whole runs: the maker-paired
shadow strategy, the latest-value IPC protocol, the incremental reports, the shadow portfolio with
its terminal hedge, and the order books and observation attempts of the market engine. Everything
is proved for all inputs; `dafny verify dfyconfig.toml` checks the project.

Code that changes state in place is modelled by classes whose methods are proved equal to
functions on values; the properties are lemmas about those functions and over runs of them.

| area | specification on values | in place | properties |
|---|---|---|---|
| maker-paired episodes | `MakerData`, `MakerOpening`, `MakerEpisodes`, `MakerRuns` | `MakerMachine` | `MakerResting` (shape), `MakerStory` and `MakerLedger` (log and cash), `MakerTrades` (prices of a run), `MakerShortfalls` (what records leave out), `MakerFloors` and `MakerEarnings` (floors), `MakerLimits` and `MakerExposure` (exposure and loss), `MakerCircuit`, `MakerSessions`, `MakerLifetime`; `MakerExamples` (inputs on which claims fail) |
| latest-value IPC | `LatestValueFrames` | `LatestValueClient`, `LatestValueServer` | `LatestValueFrames` (chunking), `LatestValueLink` (end to end) |
| shadow report | `LogTail`, `ShadowReport`, `ShadowBatch` | `IncrementalReports`, `ShadowBatch.BuildReport` | `LogTail`, `ReportRuns` (any schedule), `ReportComparison` (against one go) |
| paired opportunities | `PairedRuns`, `PairedReport` | `PairedReport.PairedOpportunityAccumulator` | `PairedRuns`, `PairedReport`, `PairedCounts` |
| fills and pairs | `OrderFills` | `OrderFills.Vwap` | `OrderFills` |
| shadow portfolio, hedge | `ShadowPortfolio`, `HedgeSizing` | `ShadowLifecycle` | `ShadowLimits`, `HedgeSizing`, `ShadowHedges` (a run realises its hedge) |
| books, attempts | `MarketBooks`, `MarketQuotes`, `ObservedArb` | `MarketSession`, `ArbAttempts` | `MarketBooks`, `MarketQuotes`, `ObservedArb`, `ArbAttempts`, the class invariants |

Conventions. Money, sizes and seconds are exact reals with the code's own tolerances and rounding.
Identifiers built from hashes are injective values (`EpisodeId`). Clocks, parsed rows, simulated
fills and `decode_line` are parameters; failed parses are `None`. The running averages of an
episode are specified by the cost they average (`cost1`, `cost2`), and the mutable episode keeps
both.

Where a stronger-looking claim fails, inputs on which it fails are given and what holds instead is proved, exactly:

- a recorded result is the cash that moved: `MakerShortfalls.PartialFillIsForgotten`; `MakerShortfalls.RecordedResultIsCash` and `CancellingIsRecorded`
- nothing opens once the orphan count has reached its limit: `MakerCircuit.OpensAtZeroLimit`; `MakerCircuit.NoOpeningAtTheLimit`
- reconnecting never ends a connection: `LatestValueFrames.ResendingIsRefused`; `LatestValueFrames.FirstFrame`
- tailing counts what counting in one go counts: `ReportComparison.BrokenTradeIsCountedOnce`, `BlankLineIsCountedOnce` and `NamelessMarketIsCountedOnce`; `ReportComparison.IncrementalAgainstBatch`
- a log that is replaced is read from its beginning: `ReportRuns.RewritingIsMissed`; `ReportRuns.CountsAfterReplacing` says from where it is read in every case, and `ReportRuns.AnyScheduleCountsTheLogs` holds when every refresh sees another identity or a smaller size
- the report counts the groups' opportunities: `PairedCounts.OneIsNotReported`; `PairedCounts.ReportedAgainstGroups`
- a hedge never loses more than a dollar: `HedgeSizing.HairSlips`; `HedgeSizing.EmptyByAHair`
- a profitable pair profits on both sides: `OrderFills.DustIsNotProfit`; `OrderFills.ProfitableIsBothProfit`
- the open notional stays within its limit: `ShadowLimits.NegativeCostExceedsNotional`, for every cost that rounds below zero; `ShadowLimits.RunsKeepLimits` bounds the excess by what ended positions of negative cost had returned, a bound those runs meet

## Model

| member | source | states |
|---|---|---|
| `MakerRuns.Evaluate` | poly_arb_bot/maker_accumulate.py:777-831 | One row: stale rows change nothing, a live episode is stepped, otherwise an opening is decided; between rows every live episode is in a resting shape |
| `MakerMachine.MakerAccumulateStateMachine.Evaluate` | poly_arb_bot/maker_accumulate.py:772-831 | The mutable machine's new state, decision and emitted events are exactly those of the value specification, and the object stays well formed |
| `MakerMachine.MakerAccumulateStateMachine.OpenPath` | poly_arb_bot/maker_accumulate.py:838-908 | Registers an accepted opening or logs a changed rejection reason, as the specification says |
| `MakerMachine.MakerAccumulateStateMachine.PortfolioView` | poly_arb_bot/maker_accumulate.py:1395-1420 | The loops over live and completed episodes compute the exposures, the day's loss and the breaker, closing a lapsed breaker |
| `MakerMachine.MakerAccumulateStateMachine.EpisodePath` | poly_arb_bot/maker_accumulate.py:910-951 | Dispatches a live episode by state and forced exits exactly as specified |
| `MakerMachine.MakerAccumulateStateMachine.Rebind` | poly_arb_bot/maker_accumulate.py:799-831 | A session change re-quotes an unfilled first leg within its budget and forces out a held one |
| `MakerMachine.MakerAccumulateStateMachine.WorkLeg1` | poly_arb_bot/maker_accumulate.py:964-1013 | Timeout, re-quote, margin check and fill of the first leg, in that order |
| `MakerMachine.MakerAccumulateStateMachine.FillLeg1` | poly_arb_bot/maker_accumulate.py:982-1013 | A fill updates the running average and starts the pair once enough is filled |
| `MakerMachine.MakerAccumulateStateMachine.RequoteLeg1` | poly_arb_bot/maker_accumulate.py:1015-1052 | Cancel and replace on the new session's book, or cancel |
| `MakerMachine.MakerAccumulateStateMachine.CancelLeg1` | poly_arb_bot/maker_accumulate.py:953-962 | Cancellation with its two events and a zero result |
| `MakerMachine.MakerAccumulateStateMachine.OpenLeg2` | poly_arb_bot/maker_accumulate.py:1056-1084 | Quotes the second leg under its cap, or abandons it at once |
| `MakerMachine.MakerAccumulateStateMachine.WorkLeg2` | poly_arb_bot/maker_accumulate.py:1086-1164 | Orphan limits and timeouts before fills, completion and quote improvement |
| `MakerMachine.MakerAccumulateStateMachine.FillLeg2` | poly_arb_bot/maker_accumulate.py:1110-1133 | A second-leg fill keeps the running average |
| `MakerMachine.MakerAccumulateStateMachine.TryImprove` | poly_arb_bot/maker_accumulate.py:1134-1164 | One counted improvement: exhausted, over the cap, or a quote that only goes up |
| `MakerMachine.MakerAccumulateStateMachine.AbandonLeg2` | poly_arb_bot/maker_accumulate.py:1166-1218 | Taker hedge when its margin suffices, otherwise a directional exit |
| `MakerMachine.MakerAccumulateStateMachine.HedgeNow` | poly_arb_bot/maker_accumulate.py:1178-1208 | Buys the missing shares as taker and completes the pair |
| `MakerMachine.MakerAccumulateStateMachine.WorkDirectionalExit` | poly_arb_bot/maker_accumulate.py:1220-1245 | Times out into a taker sale, or sells at its quote when crossed |
| `MakerMachine.MakerAccumulateStateMachine.EmergencyFlatten` | poly_arb_bot/maker_accumulate.py:1247-1253 | Marks and flattens |
| `MakerMachine.MakerAccumulateStateMachine.FlattenTaker` | poly_arb_bot/maker_accumulate.py:1255-1273 | Sells the unpaired shares as taker and closes |
| `MakerMachine.MakerAccumulateStateMachine.CompleteMaker` | poly_arb_bot/maker_accumulate.py:1275-1333 | Completion with its result and events |
| `MakerMachine.MakerAccumulateStateMachine.CloseWithLoss` | poly_arb_bot/maker_accumulate.py:1335-1372 | Closing with its result and events |
| `MakerMachine.MakerAccumulateStateMachine.Finalize` | poly_arb_bot/maker_accumulate.py:1374-1392 | Moves the episode to the records and counts orphans for the breaker |
| `MakerMachine.RunningAverage` | poly_arb_bot/maker_accumulate.py:986-992 | The running average the code keeps is the cost of the fills over their size |
| `MakerMachine.MakerEpisode.BookCompletion` | poly_arb_bot/maker_accumulate.py:1295-1296 | The completion result computed from running averages |
| `MakerMachine.MakerEpisode.BookClosing` | poly_arb_bot/maker_accumulate.py:1335-1346 | The closing result computed from running averages |
| `MakerOpening.AcceptedOpening` | poly_arb_bot/maker_accumulate.py:463-568 | An accepted opening passed every gate: breaker, daily loss, market count, both exposure limits, order size, books and window |
| `MakerData.RoundPrice` | poly_arb_bot/maker_accumulate.py:120-122 | Rounding a price moves it by at most half of 0.00001 and keeps it non-negative |
| `MakerEpisodes.Leg2Quote` | poly_arb_bot/maker_accumulate.py:1066-1073 | A second-leg quote exceeds its cap by at most the rounding |
| `MakerEpisodes.AbandonLeg2` | poly_arb_bot/maker_accumulate.py:1166-1218 | Abandoning completes the pair exactly when the hedge margin reaches its minimum, and otherwise opens the directional exit |
| `MakerOpening.OrderSizeIsLargest` | poly_arb_bot/maker_accumulate.py:512-520 | The order is the largest multiple of 0.00001 within the configured size and notional limits |
| `MakerResting.StepRests` | poly_arb_bot/maker_accumulate.py:910-1273 | Inductive shape of every live episode between rows and of every ended one: allowed states, set quotes, fills in order, a cancelled fill too small to start the pair |
| `MakerResting.FlattenEnds` | poly_arb_bot/maker_accumulate.py:1247-1273 | Flattening always ends in a close with loss |
| `MakerResting.RebindRests` | poly_arb_bot/maker_accumulate.py:799-831 | A session change keeps the resting shape and rebinds the episode |
| `MakerResting.WorkLeg1Rests` | poly_arb_bot/maker_accumulate.py:964-1052 | First-leg work keeps the resting shape or ends properly |
| `MakerResting.WorkLeg2Rests` | poly_arb_bot/maker_accumulate.py:1086-1218 | Second-leg work keeps the resting shape or ends properly |
| `MakerResting.ExitRests` | poly_arb_bot/maker_accumulate.py:1220-1245 | A directional exit keeps its shape or ends properly |
| `MakerStory.StepTells` | poly_arb_bot/maker_accumulate.py:725-739 | Replaying one row's events from an episode's story gives the story of the episode after the row; an ended one recounts its cash |
| `MakerStory.CompletionPnlIsCash` | poly_arb_bot/maker_accumulate.py:1295-1296 | The completion result is payout less purchases, fees and gas, but for the shares left unpaired |
| `MakerStory.ClosingPnlIsCash` | poly_arb_bot/maker_accumulate.py:1335-1346 | The closing result is exactly payout plus sale less purchases, fees and gas |
| `MakerLedger.RunRecorded` | poly_arb_bot/maker_accumulate.py:725-739 | Over any run: replaying the log gives back every live episode and explains every record; openings are live plus ended; no market exceeds its maximum of episodes |
| `MakerLedger.EventIdsNeverRepeat` | poly_arb_bot/maker_accumulate.py:674-731 | Event numbers of an episode strictly rise through the log, so no event id repeats |
| `MakerLedger.LiveRecorded` | poly_arb_bot/maker_accumulate.py:910-951 | A row for a live episode keeps the log and the records in agreement |
| `MakerLedger.OpeningRecorded` | poly_arb_bot/maker_accumulate.py:838-908 | An opening or rejection keeps the log and the records in agreement |
| `MakerShortfalls.RecordedResultIsCash` | poly_arb_bot/maker_accumulate.py:953-1346 | In every run over rows whose purchases cost something: a recorded result is the cash of its log always on closing with loss, on completion if and only if all first-leg shares were paired, on cancelling if and only if nothing had been bought |
| `MakerShortfalls.PartialFillIsForgotten` | poly_arb_bot/maker_accumulate.py:964-1009 | Three concrete rows after which a cancelled episode is recorded with result zero although eighty cents were spent |
| `MakerShortfalls.CancellingIsRecorded` | poly_arb_bot/maker_accumulate.py:953-1009 | A row that cancels a live first leg records zero, which is the cash if and only if nothing was filled before the row |
| `MakerFloors.StepEarns` | poly_arb_bot/maker_accumulate.py:1056-1073 | Second-leg quotes never fall and never pass their cap; a completed pair earns its floor |
| `MakerFloors.CompletionEarns` | poly_arb_bot/maker_accumulate.py:1275-1296 | A maker completion earns buffer plus realised margin less gas and rounding on every pair |
| `MakerFloors.HedgeEarns` | poly_arb_bot/maker_accumulate.py:1143-1208 | A taker hedge earns the maker floor on what was made and buffer plus hedge margin less gas on the rest |
| `MakerFloors.FillKeepsCeiling` | poly_arb_bot/maker_accumulate.py:1110-1133 | A fill at or below the ceiling keeps the second leg's average below it |
| `MakerTrades.SecondQuotesRise` | poly_arb_bot/maker_accumulate.py:1066-1164 | In the log of any run the second-leg quotes of an episode strictly rise |
| `MakerTrades.StepTrades` | poly_arb_bot/maker_accumulate.py:910-1372 | Whatever a row does to an episode, its events carry prices, sizes and quotes taken from the row and the episode |
| `MakerTrades.RunSound` | poly_arb_bot/maker_accumulate.py:777-831 | Over any run with usable bids every price in the log and in a live episode is as good as the bids |
| `MakerEarnings.CompletionsEarnTheirFloor` | poly_arb_bot/maker_accumulate.py:1279-1296 | Over any run every completion recorded earned its floor, maker and hedged parts apart |
| `MakerLimits.StepWithin` | poly_arb_bot/maker_accumulate.py:964-1372 | One row raises a commitment by no more than the rise of quotes it reports; an episode that ends lost at most its commitment, the largest fee and gas |
| `MakerLimits.FeeBounded` | poly_arb_bot/maker_accumulate.py:137-142 | The rounded taker fee is at most a quarter of size times the largest rate, plus rounding |
| `MakerLimits.ClosingLoss` | poly_arb_bot/maker_accumulate.py:1335-1346 | Closing loses at most the first leg's cost, the fee and gas |
| `MakerLimits.HedgeTolerable` | poly_arb_bot/maker_accumulate.py:1178-1208 | Hedging loses at most the first leg's cost, the fee and gas |
| `MakerLimits.RequoteWithin` | poly_arb_bot/maker_accumulate.py:1015-1052 | Only a re-quote raises a commitment, by at most the order times the rise |
| `MakerLimits.BuyLeg1Commits` | poly_arb_bot/maker_accumulate.py:982-992 | A first-leg fill moves money from promised to spent and changes no commitment |
| `MakerExposure.RunWithinLimits` | poly_arb_bot/maker_accumulate.py:504-551 | Over any run in time order with fair rows: first-leg commitments within the exposure limit, and the day's loss plus all that is at stake within the daily limit plus the worst case at the last opening, each up to re-quotes since |
| `MakerExposure.NoRequoteWithinLimits` | poly_arb_bot/maker_accumulate.py:504-551 | With no re-quote since the last opening both limits hold without slack |
| `MakerExposure.OneBindingWithinLimits` | poly_arb_bot/maker_accumulate.py:504-551 | Over any run in which every market keeps one binding both limits hold without slack |
| `MakerExposure.RowWithinLimits` | poly_arb_bot/maker_accumulate.py:777-831 | One row keeps both limits |
| `MakerExposure.ExposureCoversCommitment` | poly_arb_bot/maker_accumulate.py:1395-1410 | The exposure gated at opening counts at least the first-leg commitments |
| `MakerExposure.RegisterWithinLimits` | poly_arb_bot/maker_accumulate.py:838-908 | An opening keeps both limits and resets the budget to the episodes then live |
| `MakerCircuit.AlwaysArmed` | poly_arb_bot/maker_accumulate.py:1386-1392 | For any configuration, whenever the orphan count is at a positive limit the breaker has a time until which it is open |
| `MakerCircuit.NoOpeningAtTheLimit` | poly_arb_bot/maker_accumulate.py:502-503 | A row that opens comes after the breaker has lapsed, or while it is not set; then the orphan count is below its limit if and only if the limit is positive |
| `MakerCircuit.OpensAtZeroLimit` | poly_arb_bot/maker_accumulate.py:502-503 | With a limit of zero a concrete first row opens although the count is at its limit |
| `MakerCircuit.NoOpeningInCooldown` | poly_arb_bot/maker_accumulate.py:1386-1415 | After a tripping loss nothing opens within the cooldown, whatever happens in between |
| `MakerCircuit.RunTrace` | poly_arb_bot/maker_accumulate.py:777-831 | Every run has a trace of machines, one row apart |
| `MakerCircuit.BreakerStep` | poly_arb_bot/maker_accumulate.py:1374-1420 | What one row does to the breaker |
| `MakerSessions.BindingsOnlyAdvance` | poly_arb_bot/maker_accumulate.py:395-407 | Accepted bindings of a market form contiguous blocks that never go back, and the machine remembers exactly them |
| `MakerSessions.IntegerSessionsRise` | poly_arb_bot/maker_accumulate.py:395-407 | With integer sessions accepted bindings are equal or lexicographically increasing |
| `MakerSessions.LiveEpisodesAreCurrent` | poly_arb_bot/maker_accumulate.py:777-831 | A live episode is bound to its market's last accepted binding |
| `MakerLifetime.NothingOutlivesTheWindow` | poly_arb_bot/maker_accumulate.py:910-943 | An accepted row inside the flatten window, expired or inactive leaves no live episode for its condition, whatever the books |
| `MakerLifetime.LifetimeBounded` | poly_arb_bot/maker_accumulate.py:964-1106 | With usable books and rows at most a gap apart, no live episode is older than the requotes, the second leg, the gap and the exit timeout allow |
| `LatestValueFrames.ChunkingInvariance` | cpp/reference_ipc/latest_value_client.hpp:90-122 | Accepted snapshots and failure depend only on the concatenated bytes, not on the reads, the frame limit included |
| `LatestValueFrames.ConsumeInTwo` | cpp/reference_ipc/latest_value_client.hpp:90-122 | Two reads do what one read of both does |
| `LatestValueFrames.OverlongIsDoomed` | cpp/reference_ipc/latest_value_client.hpp:117-120 | An unfinished line over the limit fails however it continues |
| `LatestValueFrames.FramesAreTaken` | cpp/reference_ipc/latest_value_client.hpp:93-116 | Whole frames of a rising producer are all accepted, and the beginning of one more stays pending |
| `Newlines.FindNewline` | cpp/reference_ipc/latest_value_client.hpp:93-93 | The first newline or the end |
| `LatestValueFrames.FirstFrame` | cpp/reference_ipc/latest_value_client.hpp:102-107 | The first frame of a connection fails exactly when its session and sequence are already known |
| `LatestValueFrames.ResendingIsRefused` | cpp/reference_ipc/latest_value_server.hpp:100-100 | After a reconnect with nothing new the frame sent again ends the connection |
| `LatestValueLink.ConnectionIsFaithful` | cpp/reference_ipc/latest_value_server.hpp:24-50 | For any interleaving on one connection with a rising producer: no protocol error, deliveries are published snapshots in order, and publications are written, active, waiting or coalesced |
| `LatestValueLink.QuietMeansCurrent` | cpp/reference_ipc/latest_value_client.hpp:124-148 | At rest the last snapshot delivered is the last one published |
| `LatestValueLink.RunOk` | cpp/reference_ipc/latest_value_server.hpp:24-87 | The joint invariant of server, wire and client over whole runs |
| `LatestValueLink.StepOk` | cpp/reference_ipc/latest_value_server.hpp:24-50 | Each step of server, wire or client keeps the joint invariant |
| `LatestValueLink.PrefixTaken` | cpp/reference_ipc/latest_value_client.hpp:90-122 | A rising stream cut anywhere yields some frames whole and the beginning of the next |
| `LatestValueLink.NewestWaits` | cpp/reference_ipc/latest_value_client.hpp:110-111 | Accepting more replaces the waiting snapshot by the newest |
| `LatestValueServer.Client.Send` | cpp/reference_ipc/latest_value_server.hpp:24-33 | Starts a write when idle, otherwise replaces the waiting frame and reports the overwrite |
| `LatestValueServer.Client.WriteCompleted` | cpp/reference_ipc/latest_value_server.hpp:36-49 | The waiting frame becomes active, or the client goes idle |
| `LatestValueServer.Server.Publish` | cpp/reference_ipc/latest_value_server.hpp:82-87 | Every client is sent the frame once and every overwrite is counted once |
| `LatestValueServer.Server.Accept` | cpp/reference_ipc/latest_value_server.hpp:94-104 | A new client is sent the latest frame, if there is one |
| `LatestValueServer.Server.Remove` | cpp/reference_ipc/latest_value_server.hpp:106-109 | Removes one client and keeps the order of the others |
| `LatestValueClient.Client.ConsumeBytes` | cpp/reference_ipc/latest_value_client.hpp:90-122 | One read is the framing specification; the newest accepted snapshot waits, overwrites are counted, an error gives the connection up |
| `LatestValueClient.Client.DrainLines` | cpp/reference_ipc/latest_value_client.hpp:93-116 | The loop over newlines takes the complete lines up to the first error |
| `LatestValueClient.Client.TakeLine` | cpp/reference_ipc/latest_value_client.hpp:98-115 | One line is accepted or refused as the rule says, counting an overwritten snapshot |
| `LatestValueClient.Client.ReadCompleted` | cpp/reference_ipc/latest_value_client.hpp:75-88 | Nothing accepted is undone; an error flushes what waits and disconnects |
| `LatestValueClient.Client.ScheduleDelivery` | cpp/reference_ipc/latest_value_client.hpp:124-134 | Schedules at most one delivery |
| `LatestValueClient.Client.TimerFired` | cpp/reference_ipc/latest_value_client.hpp:129-133 | Delivers the waiting snapshot unless stopped |
| `LatestValueClient.Client.FlushLatest` | cpp/reference_ipc/latest_value_client.hpp:136-140 | Delivers at once what waits |
| `LatestValueClient.Client.DeliverLatest` | cpp/reference_ipc/latest_value_client.hpp:142-148 | Delivers each waiting snapshot once, in the order of acceptance |
| `LatestValueClient.Client.DisconnectAndReconnect` | cpp/reference_ipc/latest_value_client.hpp:150-171 | Forgets the buffer and what waits, keeps what was accepted, counts the reconnect |
| `LogTail.ReadInTwo` | poly_arb_bot/shadow_report.py:226-269 | A pass over the log as far as written, then one from where it stopped over the finished log, read what one pass over the finished log reads |
| `LogTail.TakenEarly` | poly_arb_bot/shadow_report.py:244-253 | A row taken before its newline is written is the finished line's row, and the rest of the line is passed over |
| `LogTail.ReadsToTheEnd` | poly_arb_bot/shadow_report.py:239-265 | A finished log is read to its end |
| `ReportRuns.AnyScheduleCountsTheLogs` | poly_arb_bot/shadow_report.py:205-325 | For any appends, replacements of a log, refreshes and restarts from checkpoints: if every refresh notices a replacement, by its identity or its size, the next one has counted the rows of the log and of a beginning of each file it was before, each once and in order; of all of each, if replacements follow refreshes and the process never restarts |
| `ReportRuns.NewIdentitiesAreNoticed` | poly_arb_bot/shadow_report.py:226-236 | Files of identities never used before are noticed, whatever the schedule |
| `ReportRuns.OthersOrShorterAreNoticed` | poly_arb_bot/shadow_report.py:226-236 | While every file is read before it is replaced and the process runs on, a file is noticed that has another identity than the one before or is shorter, so a log cut in place is too |
| `ReportRuns.CountsAfterReplacing` | poly_arb_bot/shadow_report.py:226-236 | In any run, after a file read to its end has been replaced the next refresh counts the rows of the new one from where the old one ended, if it has the same identity and is not shorter, and all of them otherwise; and those are exactly the replacements noticed |
| `ReportRuns.RewritingIsMissed` | poly_arb_bot/shadow_report.py:226-236 | Two concrete files of one identity and size: the second is never counted though the first was read before it was replaced |
| `ReportRuns.RunOk` | poly_arb_bot/shadow_report.py:205-325 | Over whole runs every bucket, in memory and saved, has counted its part of the past files and stands somewhere in the finished log |
| `ReportRuns.StepOk` | poly_arb_bot/shadow_report.py:226-325 | Appending, refreshing and restarting keep every bucket, in memory and saved, standing in the finished log |
| `ReportRuns.PutOk` | poly_arb_bot/shadow_report.py:226-236 | A new file in the place of the log keeps what was counted of the old one, and the new one is still to be read |
| `ShadowReport.FilePass` | poly_arb_bot/shadow_report.py:226-269 | A pass moves a bucket on in the log |
| `ShadowReport.TakeAtAnyTime` | poly_arb_bot/shadow_report.py:271-275 | Rows on the same side of two clocks are counted alike by both |
| `ReportComparison.IncrementalAgainstBatch` | poly_arb_bot/shadow_report.py:327-417 | After any schedule over logs never replaced, the incremental report has the counters and reasons of the one-go report; `invalid_json` agrees if and only if as many broken trade lines as blank audit lines occur, `markets_seen` if and only if no fresh row names the empty market, durations, ages and trades if and only if they fit and all trades carry ids |
| `ReportComparison.BrokenTradeIsCountedOnce` | poly_arb_bot/shadow_report.py:327-417 | One broken line in the execution log: the incremental report counts one invalid line, the one-go report none |
| `ReportComparison.BlankLineIsCountedOnce` | poly_arb_bot/shadow_report.py:19-27 | One blank line in the audit log: invalid in one go, passed over in tailing |
| `ReportComparison.NamelessMarketIsCountedOnce` | poly_arb_bot/shadow_report.py:285-400 | One row with an empty market name: seen in one go, not in tailing |
| `ShadowBatch.TalliesAgree` | poly_arb_bot/shadow_report.py:271-302 | As long as no more ids occur than are remembered, bounded memory counts what unbounded memory does |
| `ShadowBatch.TradesAgree` | poly_arb_bot/shadow_report.py:304-315 | The trades kept are the most recent distinct ones with an id |
| `ShadowBatch.BlankLinesAreInvalid` | poly_arb_bot/shadow_report.py:19-27 | Counting in one go differs from tailing by counting blank lines as invalid |
| `ShadowBatch.CountsMean` | poly_arb_bot/shadow_report.py:369-398 | Every line is invalid, future, repeated or fresh, and each counter is the number of fresh rows of its kind |
| `ShadowBatch.BuildReport` | poly_arb_bot/shadow_report.py:360-398 | The loop of the one-go report computes the fold over all lines |
| `IncrementalReports.IncrementalReport.constructor` | poly_arb_bot/shadow_report.py:155-203 | A new process starts from its checkpoint or empty, the sets rebuilt from the queues |
| `IncrementalReports.IncrementalReport.ConsumeAudit` | poly_arb_bot/shadow_report.py:271-302 | One audit row in place; the set stays the elements of the duplicate-free bounded queue |
| `IncrementalReports.IncrementalReport.ConsumeExecution` | poly_arb_bot/shadow_report.py:304-315 | One execution row in place, likewise |
| `IncrementalReports.IncrementalReport.ConsumeLines` | poly_arb_bot/shadow_report.py:237-265 | The read loop counts exactly what one pass reads and stops where it stops |
| `IncrementalReports.IncrementalReport.ConsumeFile` | poly_arb_bot/shadow_report.py:226-269 | Tails one log, starting over for another or a shorter file, and reports whether anything moved |
| `IncrementalReports.IncrementalReport.Save` | poly_arb_bot/shadow_report.py:205-220 | Writes the checkpoint unless one was written a short while ago |
| `IncrementalReports.IncrementalReport.Refresh` | poly_arb_bot/shadow_report.py:317-325 | Both logs, then a save if anything moved |
| `IncrementalReports.PushRemembered` | poly_arb_bot/shadow_report.py:280-284 | Pushing into the full queue and discarding its oldest from the set keeps them equal |
| `PairedRuns.RunsAreTheClusters` | poly_arb_bot/paired_opportunity_report.py:282-309 | Whatever the order of markets, each one's closed and open runs are the largest clusters of its opportunity events, summarised |
| `PairedRuns.ClusteringIsUnique` | poly_arb_bot/paired_opportunity_report.py:282-303 | Events can be cut into largest clusters in one way only |
| `PairedRuns.ClustersCluster` | poly_arb_bot/paired_opportunity_report.py:282-303 | Growing the last cluster event by event yields largest clusters |
| `PairedRuns.EventsAreCounted` | poly_arb_bot/paired_opportunity_report.py:286-303 | Open and closed runs together hold every opportunity event once |
| `PairedRuns.MinCostIsLeast` | poly_arb_bot/paired_opportunity_report.py:289-289 | A run's minimum cost is attained and least |
| `PairedReport.ReportIsRight` | poly_arb_bot/paired_opportunity_report.py:215-309 | For any rows read at any times: the events (the first occurrences, by `PairedCounts.EventsAreFresh`) are valid plus each exclusion; every group holds its own counts and least cost; runs are those of the opportunity events, the closed ones capped |
| `PairedReport.RunsCountOpportunities` | poly_arb_bot/paired_opportunity_report.py:279-309 | Runs hold as many events as there were opportunities with a usable timestamp, while none was dropped for number |
| `PairedReport.CostPerShare` | poly_arb_bot/paired_opportunity_report.py:178-213 | A valid cost is positive and is the net cost scaled by prices over gross cost |
| `PairedCounts.ReportedAgainstGroups` | poly_arb_bot/paired_opportunity_report.py:250-330 | While no more valid costs occurred than are stored, the opportunities reported from rounded costs are those of all groups together if and only if no valid cost rounds across the configured threshold |
| `PairedCounts.CostsAreStored` | poly_arb_bot/paired_opportunity_report.py:255-265 | The stored costs are the rounded costs of the valid events in order, up to their maximum number |
| `PairedCounts.EventsAreFresh` | poly_arb_bot/paired_opportunity_report.py:215-232 | While no more ids occur than are remembered, the events are the first occurrences of each id |
| `PairedCounts.OneIsNotReported` | poly_arb_bot/paired_opportunity_report.py:255-330 | One concrete row just below a threshold of a dollar is an opportunity of its group and is not reported |
| `PairedReport.PairedOpportunityAccumulator.ConsumeRow` | poly_arb_bot/paired_opportunity_report.py:215-280 | One row in place, as the specification says; the set of seen ids is the elements of the bounded queue |
| `PairedReport.PairedOpportunityAccumulator.CountCost` | poly_arb_bot/paired_opportunity_report.py:250-280 | Counts a valid cost in the totals, its group and its run |
| `PairedReport.PairedOpportunityAccumulator.ExtendRun` | poly_arb_bot/paired_opportunity_report.py:282-303 | Continues the market's open run or closes it and starts another |
| `PairedReport.PairedOpportunityAccumulator.CloseRun` | poly_arb_bot/paired_opportunity_report.py:305-309 | Keeps the most recent closed runs |
| `OrderFills.Vwap` | poly_arb_bot/shadow_opportunity.py:34-45 | The walk over the levels computes the specification's fill |
| `OrderFills.WalkIsOptimal` | poly_arb_bot/shadow_opportunity.py:34-45 | The walk fills all that is wanted or there up to dust, and no allocation of as many shares is cheaper |
| `OrderFills.SaleIsOptimal` | cpp/market_ws_engine/market_ws_engine.cpp:617-627 | Walking down the bids sells that quantity for the most |
| `OrderFills.AverageRises` | cpp/market_ws_engine/market_ws_engine.cpp:629-637 | The quantity filled and its average price never fall as more is wanted |
| `OrderFills.AnyLeans` | poly_arb_bot/shadow_opportunity.py:34-45 | Any allocation takes more than the walk only at prices from its last price up |
| `OrderFills.LeaningCosts` | poly_arb_bot/shadow_opportunity.py:34-45 | Leaning away from a pivot price costs at least that price for every share more |
| `OrderFills.ProfitableIsBothProfit` | poly_arb_bot/pnl_curve.py:16-35 | On any two books: a pair is reported profitable exactly when it can be filled and its position profits on both sides, if and only if it cannot be filled or its cost is not in the dust between the shares filled and the size wanted |
| `OrderFills.WholePairs` | poly_arb_bot/pnl_curve.py:16-35 | When both books hold the size, and no first levels of either hold all of it but dust, the pair has that size and profitable means profit on both sides |
| `OrderFills.VisitedIsFirst` | poly_arb_bot/shadow_opportunity.py:34-45 | The walk stops at the first level up to which all but dust of what is wanted is there |
| `OrderFills.DustIsNotProfit` | poly_arb_bot/pnl_curve.py:16-35 | Two concrete books whose pair is reported profitable while its position profits on one side only |
| `OrderFills.FilledPair` | poly_arb_bot/shadow_opportunity.py:52-63 | A complete pair holds the wanted size up to dust at the cost reported |
| `HedgeSizing.ChosenIsBest` | poly_arb_bot/cpp_strategy_parity.py:46-66 | With a non-empty interval the chosen hedge lies in it, maximises the expected result over it, and caps the reversal loss at one dollar |
| `HedgeSizing.MinimumCapsLoss` | poly_arb_bot/cpp_strategy_parity.py:46-46 | The lower end of the interval is exactly where a reversal loses one dollar |
| `HedgeSizing.MaximumIsAffordable` | poly_arb_bot/cpp_strategy_parity.py:47-52 | The upper end respects size, liquidity and breaking even on a win |
| `HedgeSizing.ExpectedIsLinear` | poly_arb_bot/cpp_strategy_parity.py:63-66 | Each hedge share adds its edge to the expected result |
| `HedgeSizing.EmptyByAHair` | poly_arb_bot/cpp_strategy_parity.py:55-58 | When the tolerance admits an empty interval, the loss cap fails exactly if the hedge has an edge |
| `HedgeSizing.HairSlips` | poly_arb_bot/cpp_strategy_parity.py:55-74 | A concrete case that is hedged and loses more than a dollar on a reversal |
| `HedgeSizing.ReversalCheckIsIdle` | poly_arb_bot/cpp_strategy_parity.py:67-74 | With a non-empty interval the reversal check never rejects |
| `HedgeSizing.AuditLosesTheMaximum` | poly_arb_bot/ev_shadow.py:896-939 | An accepted audited hedge loses exactly the maximum on a reversal; any smaller one loses more |
| `ShadowHedges.SettlementRealisesTheHedge` | poly_arb_bot/strategy_shadow_lifecycle.py:579-1053 | In any run, a settlement logged is made in a later step than that whose row opened its position, for the side decided by the sample and start price found there; where the row carried an audited hedge the result is the one promised for a win, or for a reversal, to within rounding |
| `ShadowHedges.RunBacked` | poly_arb_bot/strategy_shadow_lifecycle.py:579-1053 | Every open position of a run is that of a row consumed in it |
| `ShadowLimits.RunsKeepLimits` | poly_arb_bot/strategy_shadow_lifecycle.py:296-336 | Outside calibration no run exceeds a count limit or a close-window limit, nor a notional limit by more than half a unit of the twelfth place and what ended positions of negative cost had returned |
| `ShadowLimits.FairRunsReturnNothing` | poly_arb_bot/strategy_shadow_lifecycle.py:296-336 | If no hedged row costs less than nothing, nothing is returned and the notional limits hold to half a unit |
| `ShadowLimits.NegativeCostExceedsNotional` | poly_arb_bot/strategy_shadow_lifecycle.py:296-336 | For every cost that rounds below zero three steps after which the open notional exceeds its limit by exactly what was returned |
| `ShadowLimits.PositionsEndOnce` | poly_arb_bot/strategy_shadow_lifecycle.py:579-768 | Every position opened is open or has ended exactly once, by profit exit, settlement or as an orphan |
| `ShadowLimits.KeysStayDistinct` | poly_arb_bot/strategy_shadow_lifecycle.py:539-541 | No key is open twice |
| `ShadowLimits.NothingOverdue` | poly_arb_bot/strategy_shadow_lifecycle.py:945-1053 | After a settlement pass no position is left that closed the orphan delay ago or longer |
| `ShadowLimits.ExitsAlwaysPay` | poly_arb_bot/strategy_shadow_lifecycle.py:705-726 | Every profitable exit of a run realised at least the minimum result |
| `ShadowLimits.EnteringKeepsLimits` | poly_arb_bot/strategy_shadow_lifecycle.py:296-336 | An entry that is not blocked keeps every limit |
| `ShadowPortfolio.Earliest` | poly_arb_bot/strategy_shadow_lifecycle.py:926-943 | The settlement sample is the earliest eligible one, and there is one if any is eligible |
| `ShadowPortfolio.Find` | poly_arb_bot/strategy_shadow_lifecycle.py:539-541 | The position with a key, if there is one |
| `ShadowPortfolio.Round12` | poly_arb_bot/strategy_shadow_lifecycle.py:705-706 | Rounding to twelve places moves by at most half a unit and keeps the sign of non-negative values |
| `ShadowLifecycle.StrategyShadowLifecycle.ConsumeRow` | poly_arb_bot/strategy_shadow_lifecycle.py:514-660 | One row in place: exit, entry, rejection or nothing, as specified |
| `ShadowLifecycle.StrategyShadowLifecycle.TryProfitExit` | poly_arb_bot/strategy_shadow_lifecycle.py:673-772 | Exits exactly when the observed exit is taken |
| `ShadowLifecycle.StrategyShadowLifecycle.ExitAllowed` | poly_arb_bot/strategy_shadow_lifecycle.py:685-726 | The chain of early returns decides as specified |
| `ShadowLifecycle.StrategyShadowLifecycle.Settle` | poly_arb_bot/strategy_shadow_lifecycle.py:945-1053 | The loop settles, orphans or marks every due position as specified |
| `ShadowLifecycle.StrategyShadowLifecycle.EndPosition` | poly_arb_bot/strategy_shadow_lifecycle.py:756-768 | An ending is logged once and the position deleted |
| `MarketBooks.ChangesReplayInOrder` | cpp/market_ws_engine/market_ws_engine.cpp:1763-1795 | If all messages carry timestamps a token's accepted changes are newer than its snapshot and replayed in time order |
| `MarketBooks.MessageProper` | cpp/market_ws_engine/market_ws_engine.cpp:1747-1809 | After any message a token's book has only positive sizes |
| `MarketBooks.AddChangesProper` | cpp/market_ws_engine/market_ws_engine.cpp:1770-1795 | A batch appends accepted changes to the snapshot it found |
| `MarketQuotes.AsksRise` | cpp/market_ws_engine/market_ws_engine.cpp:629-637 | Asks are walked from the lowest price up, each level once |
| `MarketQuotes.BidsFall` | cpp/market_ws_engine/market_ws_engine.cpp:617-627 | Bids are walked from the highest price down, each level once |
| `MarketQuotes.BuysForLeast` | cpp/market_ws_engine/market_ws_engine.cpp:629-637 | Of all ways to buy as many shares from a book none is cheaper than its walk |
| `MarketQuotes.SellsForMost` | cpp/market_ws_engine/market_ws_engine.cpp:617-627 | Of all ways to sell as many shares to a book none brings more than its walk |
| `MarketSession.MarketWsSession.ProcessMessage` | cpp/market_ws_engine/market_ws_engine.cpp:1747-1815 | Each token's book holds its last snapshot with the accepted later changes, or is empty, with positive sizes only; the batch loop over all tokens does per token what its own rows say |
| `MarketSession.MarketWsSession.TakeChanges` | cpp/market_ws_engine/market_ws_engine.cpp:1763-1809 | A batch of changes, with every spoiled token resynchronised at the end and pending attempts invalidated |
| `MarketSession.MarketWsSession.TakeSnapshot` | cpp/market_ws_engine/market_ws_engine.cpp:1750-1762 | A snapshot replaces the sides it carries |
| `MarketSession.ApplyToBook` | cpp/market_ws_engine/market_ws_engine.cpp:1770-1795 | One change: ignored, stale, spoiling or applied |
| `MarketSession.SetLevels` | cpp/market_ws_engine/market_ws_engine.cpp:576-584 | Rows applied in order to a cleared side |
| `MarketSession.MarketWsSession.ResyncToken` | cpp/market_ws_engine/market_ws_engine.cpp:3038-3056 | Empties the book, forgets the token and invalidates pending attempts, once |
| `MarketSession.MarketWsSession.Evaluate` | cpp/market_ws_engine/market_ws_engine.cpp:2065-2134 | Exactly the due attempts are resolved first, each on the books its market then has, generation and session included; then exactly the markets whose two books have a snapshot and are not crossed go on to be priced, overdue crossed books are emptied, and if there is one the other attempts are invalidated, once |
| `MarketSession.MarketWsSession.MarketsToPrice` | cpp/market_ws_engine/market_ws_engine.cpp:2474-2496 | Crossed books hold their markets back and are emptied after half a second, and attempts are invalidated exactly then |
| `MarketSession.MarketWsSession.ReloadMarkets` | cpp/market_ws_engine/market_ws_engine.cpp:3172-3207 | Books are again those of the listed tokens, all of the new generation; kept tokens keep what is known of them |
| `MarketSession.MarketWsSession.Fail` | cpp/market_ws_engine/market_ws_engine.cpp:3253-3266 | A disconnection empties every book and leaves nothing pending |
| `ArbAttempts.ArbAttempts.Conservation` | cpp/market_ws_engine/market_ws_engine.cpp:1994-2171 | Attempts started are those pending, executable, orphaned and invalidated |
| `ArbAttempts.PlacedOnce` | cpp/market_ws_engine/market_ws_engine.cpp:2154-2171 | Every attempt started is pending or resolved, never both, never twice |
| `ArbAttempts.ArbAttempts.UpdateObserved` | cpp/market_ws_engine/market_ws_engine.cpp:1982-2063 | Every size, order and delay of a market is active exactly when that size qualifies on the market's books, unless the limit of pending attempts is reached; attempts start on the book legs seen; nothing pending is lost |
| `ArbAttempts.SizesUpdated` | cpp/market_ws_engine/market_ws_engine.cpp:1994-2063 | Over all sizes, orders and delays: what is pending stays, numbers rise, and activity follows qualification up to the limit |
| `ArbAttempts.ArbAttempts.UpdateOne` | cpp/market_ws_engine/market_ws_engine.cpp:2003-2059 | One episode: ended, kept, refused for room, or started with one attempt under a new number |
| `ArbAttempts.ArbAttempts.ProcessDue` | cpp/market_ws_engine/market_ws_engine.cpp:2065-2134 | Exactly the due attempts are resolved, once, as observed on their market's quotes, or invalidated for want of their market |
| `ArbAttempts.ResolutionsMean` | cpp/strategy/observed_arb.hpp:67-171 | Of the due attempts: an executable one pays both legs, fees and the buffer out of its payout and keeps something, with its second leg there in full; one is invalidated exactly when its market, its validity or the book of its second leg is gone |
| `ArbAttempts.ArbAttempts.Invalidate` | cpp/market_ws_engine/market_ws_engine.cpp:2154-2171 | Everything pending is invalidated once and every episode forgotten |
| `ObservedArb.QualifiedExecutes` | cpp/strategy/observed_arb.hpp:85-171 | An attempt started on qualifying, ready books is valid and, if the books have not changed when it is due, executes for the profit that qualified it |

## Left out

- HTTP, WebSocket, TLS and Asio plumbing, file reads and writes, environment parsing: bytes, rows, steps and a config value stand for them.
- IEEE floating point: reals are exact; overflow, NaN and infinities occur only as the absent values the code tests for.
- Audit-only fields of episodes and positions: estimated rebates and rewards, margins shown, drawdown, book-view fields, exit VWAP for display, statistics.
- Probability models, Kelly sizing, calibration, Wilson and Sharpe statistics, percentiles: single functions, some transcendental.
- MakerExposure.RunWithinLimits: `max_at_risk_exposure` is stated only at openings (`MakerOpening.AcceptedOpening`), because the code checks it only there; the exposure bound carries the slack of re-quotes, which the code does not check either. Rows must be in time order with prices in [0, 1] and fee rates bounded.
- MakerLifetime.LifetimeBounded: timestamps are positive, because the code reads a fill time of 0.0 as unset, and the timeframe of a condition does not change.
- MakerSessions.LiveEpisodesAreCurrent: markets and conditions pair off one to one; two conditions sharing a market would be rebound only when their own rows come.
- LatestValueLink.ConnectionIsFaithful: one connection, one producer session; over reconnects the monotonicity of accepted snapshots is the invariant of `LatestValueClient.Client`. `stop()` followed by `start()` is not modelled. `decode_line` is any function that decodes what the encoder wrote.
- LatestValueLink: the server's outbox carries snapshots and the wire their frames, one client at a time; a write error ends the connection and so the run.
- ReportComparison.IncrementalAgainstBatch: the audit rows are not on the border between the clocks of the refreshes and of the one-go report, event ids do not outnumber the remembered ones, lines are rows with well-typed fields, split at newlines only, and no proper beginning of a line is a row by itself.
- ReportRuns.AnyScheduleCountsTheLogs: a log is replaced at the end of a line; no proper beginning of a line is a row by itself.
- ShadowReport: performance figures, the trade ledger and hash selection computed from the completed rows are functions of the rows shown equal.
- PairedReport: `consume_file` is the loop of `IncrementalReports` with a line counter and is not repeated; the report's buckets, percentiles and duration tables.
- PairedRuns.RunsAreTheClusters: near means a gap in [0, maximum], so out-of-order timestamps cut a run as the code does; with timestamps in order these are the clusters by gap.
- ShadowPortfolio: split-sell, inventory, maker-quote and probability-prediction rows; `process_audit_once` and its replay; the state file and its backfill from logs. A strategy outside the three that hold positions changes nothing modelled.
- HedgeSizing: the directional acceptance and hedge quote blockers before the audited sizing.
- MarketSession: message counters for display, hashes, `active_since`, maker observations, inventories, resubscription messages, evaluation throttling by book version and time bucket, and pricing itself.
- ArbAttempts: the source's one session class is split into books and attempts. Pending attempts are visited in any order; what a market is observed by besides its books (fee rate, freshness, time to close, buffer) is read once for each pass.
- LocalOrderBook: its updates are those of `MarketBooks` without timestamps.
- Web panel, scanner, command line and collection scripts.
