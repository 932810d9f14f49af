# Verified models of seven components

A Dafny model of the parts of this repository whose mistakes would cost money, lose alerts or
leave a camera streaming, with proofs of what they promise. `dafny verify dfyconfig.toml` checks
everything.

| file | models |
|---|---|
| `Windows.dfy`, `InverterClock.dfy`, `SolisFeeds.dfy`, `SolisPlan.dfy` | the Solis charge scheduler: half-hour prices to charge windows, windows to bare HH:MM ranges, and what an inverter with an offset, drifting clock does with those ranges every day |
| `InverterWriter.dfy` | programming the inverter: three phases of writes through a control call that can fail after having taken effect, and one switch register shared by all slots |
| `AlertQueue.dfy` | the durable alert queue of the Home Assistant bridge: observe, persist, deliver, crash, restart |
| `RtcSessions.dfy` | Alexa camera sessions on a cooperative event loop |
| `Replication.dfy` | BayWatch: a snapshot and a stream of changes from agent to UI |
| `UsageStore.dfy` | the usage queue exporter's counters |
| `Tariffs.dfy` | the electricity briefing's tariff maths |
| `SdpCandidates.dfy` | embedding ICE candidates into an SDP answer (`a=candidate` of section 5.1 of RFC 8839, `a=end-of-candidates` of section 8 of RFC 8840) |
| `Options.dfy`, `Sorting.dfy`, `Collections.dfy` | an option type, a stable sort, sizes of sets |

Code that works step by step is a method or a class here, proved equal to a function of its
inputs and its old state; what the source promises is then proved of those functions, over every
input and every run: what never happens, and what each operation does, in terms of its inputs
and not of the functions it is made of. Failures, crashes and the order of events are explicit inputs (`Luck`,
`Step`, `Op`, `Pop`), or havoc in the inverter's control call, so a theorem over all of them is
one over all failures and schedules. Instants are whole UTC seconds, prices whole units.

## What the proofs found

- **A session beyond the planning cutoff is not safe.** Agile slots are held to 24 h less the
  tolerated drift, but free and saving sessions are admitted up to 36 h ahead
  (solis_agile_charge.py, lines 422 and 431) and a range is a bare HH:MM. `SessionBeyondCutoffIsUnsafe` is
  a session whose range runs today at a price above the cap; `AliasFreeIffInsideCutoff` is the
  exact condition. The end-to-end theorems assume `SessionFits` (whole minutes, over by the cutoff,
  not coming round again within the horizon that is promised for) and that the merged windows
  split cleanly.
- **The split at midnight can write a range that is not in order.** Its documentation says never to
  write one. A window from the last minute before the inverter's midnight, or one that reaches a
  second midnight, still gives one, or one that ends a day early (`SplitFitsOneDayIff` is the exact
  condition, `SplitCanMiss` has two inputs). Slots never do this; `FreshSessionsSplitCleanly` says
  which sessions cannot.
- **"Never a stale slot live next to a new one" is not quite so.** Two slots that are on, stay on
  and change their windows are rewritten one after the other. `StaleNextToNewIff` says that this
  is the only way, `StaleNextToNewHappens` is such an input.
- **A UI that joins an agent before its first snapshot is stranded.** The agent serves `/v1/stream`
  before the first reconcile is done and then sends no snapshot, and the UI drops the events of an
  unknown host (`EarlyJoinerIsStranded`, `StrandedIff`).
- **A dropped event is not made up for.** The hub's comment counts on a next snapshot or poll, but a
  connected subscriber gets neither. `LostEventMattersIff` says exactly when a loss matters,
  `StaleUntilItChanges` that the bay then stays wrong until it changes again or the connection
  ends, and `LossHappens` is a run from the start in which it does.
- **A restart can change the overflow counter.** Reloading the known pairs from the tables makes the
  overflow pair a known one; `RestartChangesOnlyOverflow` says exactly what that changes,
  `RestartShowsInOverflow` is an input that shows it.
- **An SDP text without a media section is returned as it is**, foreign candidates included
  (`NoForeignCandidatesIff`). The caller checks for a media line first.

The zone theorem covers a drift that changes after planning: `EndToEndPriceSafety` takes the clock
distance at the moment of running, and any distance within 25 minutes of the zone reads as that
zone (`ClockRecovery`).

## Model

| member | source | states |
|---|---|---|
| Windows.MergeWindows | kubernetes/apps/default/solis-charge/app/resources/solis_agile_charge.py:577-608 | the loop over sorted windows that extends or appends to the last one computes the merge that the lemmas below are about |
| Windows.MergeKeepsInstants | kubernetes/apps/default/solis-charge/app/resources/solis_agile_charge.py:577-608 | merging keeps exactly the instants of the input, yields windows in order and strictly apart, and a window is free exactly when one of its constituents was |
| Windows.SeparatedIsUnique | kubernetes/apps/default/solis-charge/app/resources/solis_agile_charge.py:577-608 | two lists of windows in order and strictly apart that cover the same instants have the same bounds |
| Windows.MergeIgnoresOrder | kubernetes/apps/default/solis-charge/app/resources/solis_agile_charge.py:577-608 | any two orders of the same windows merge to the same list |
| Windows.MergeIsIdempotent | kubernetes/apps/default/solis-charge/app/resources/solis_agile_charge.py:577-608 | merging a merged list changes nothing |
| Windows.MergeKeepsEach | kubernetes/apps/default/solis-charge/app/resources/solis_agile_charge.py:577-608 | every input window lies inside one merged window |
| Windows.MergedUnfreeInstant | kubernetes/apps/default/solis-charge/app/resources/solis_agile_charge.py:577-608 | an instant of a merged window that is not free belongs to an input window that is not free |
| Windows.SplitAtInverterMidnight | kubernetes/apps/default/solis-charge/app/resources/solis_agile_charge.py:985-1021 | the loop cuts each window at the inverter's next midnight as SplitOne says |
| Windows.SplitWindow | kubernetes/apps/default/solis-charge/app/resources/solis_agile_charge.py:999-1020 | the three cases on an end before, at or after the next midnight of the inverter |
| Windows.SplitCover | kubernetes/apps/default/solis-charge/app/resources/solis_agile_charge.py:985-1021 | splitting removes exactly the minute before each midnight that a window touches or crosses, and nothing else |
| Windows.SplitPieces | kubernetes/apps/default/solis-charge/app/resources/solis_agile_charge.py:985-1021 | each range handed on is a piece of one window |
| Windows.SplitInOrder | kubernetes/apps/default/solis-charge/app/resources/solis_agile_charge.py:985-1021 | windows in order and apart are split into ranges each of which begins after the ones before it have begun and ended |
| InverterClock.ClockRecovery | kubernetes/apps/default/solis-charge/app/resources/solis_agile_charge.py:689-710 | a clock whole hours from UTC with at most 25 minutes of drift is read as exactly that zone and drift, and accepted just when the zone is within 14 hours |
| InverterClock.ClockReadingIsUnambiguous | kubernetes/apps/default/solis-charge/app/resources/solis_agile_charge.py:689-710 | an accepted reading has one decomposition into zone and tolerated drift; a refused one has none within 14 hours |
| InverterClock.WrittenRangeRecursDaily | kubernetes/apps/default/solis-charge/app/resources/solis_agile_charge.py:1024-1037 | a bare HH:MM range on the inverter runs at the window meant and at its images on every other day, no more and no less |
| InverterClock.SplitFitsOneDayIff | kubernetes/apps/default/solis-charge/app/resources/solis_agile_charge.py:985-1021 | the split ranges of a window are in order and on one inverter day exactly when the window does not begin in the last minute before a midnight it reaches and does not reach a second one |
| InverterClock.SplitCanMiss | kubernetes/apps/default/solis-charge/app/resources/solis_agile_charge.py:985-1021 | two inputs that miss it: 23:59-00:30 gives an empty first range, 30 hours from 22:00 a second range that ends a day early |
| InverterClock.InsideCutoffNeverAliases | kubernetes/apps/default/solis-charge/app/resources/solis_agile_charge.py:344-367 | a range that ends inside the 24 h less the tolerated drift, and does not come round again within the horizon, runs only inside its own window at any tolerated drift |
| InverterClock.AliasFreeIffInsideCutoff | kubernetes/apps/default/solis-charge/app/resources/solis_agile_charge.py:419-438 | for windows admitted up to 36 h ahead and any horizon up to 23 h, exactly when a range runs on a day it was not meant for |
| SolisPlan.SplitIsInOrderIff | kubernetes/apps/default/solis-charge/app/resources/solis_agile_charge.py:985-1021 | the ranges of a whole list of windows are in order and on one inverter day exactly when every window splits cleanly |
| SolisFeeds.PlanningSlotsAreSound | kubernetes/apps/default/solis-charge/app/resources/solis_agile_charge.py:286-373 | every planned slot comes from a feed, has not ended and ends inside the cutoff; non-overlapping feeds never give a plan that prices an instant twice, whatever the second read of the next-day feed returns |
| SolisFeeds.PlannedIff | kubernetes/apps/default/solis-charge/app/resources/solis_agile_charge.py:286-373 | a slot is planned exactly when it is one of today's source that has not ended and ends inside the cutoff, or, if there is one of those, one of tomorrow that begins when they are over and ends inside the cutoff; the source is the first feed that covers the read, or else the next-day feed while it is ahead |
| SolisFeeds.ChargeWindowIsAnArc | kubernetes/apps/default/solis-charge/app/resources/solis_agile_charge.py:448-463 | the minutes the knob allows are those met on a dial from its start to its end, all of them if the two are equal |
| SolisFeeds.FindCheapWindows | kubernetes/apps/default/solis-charge/app/resources/solis_agile_charge.py:466-512 | the loop over sorted cheap slots with its current start and end computes the runs that the next row is about |
| SolisFeeds.CheapWindowsAreCheapRuns | kubernetes/apps/default/solis-charge/app/resources/solis_agile_charge.py:466-512 | each instant of one of the at most three cheap windows lies in an eligible slot at or below the cap; for a non-overlapping feed they are the first of the maximal runs, which are in order, strictly apart, and cover exactly the eligible instants |
| SolisFeeds.EarliestRunsAreTaken | kubernetes/apps/default/solis-charge/app/resources/solis_agile_charge.py:466-512 | for a non-overlapping feed the windows are at most three, in order and strictly apart, and cover eligible instants only; every eligible instant is covered unless there are three windows and it lies after the last |
| SolisPlan.FilterSafeWindows | kubernetes/apps/default/solis-charge/app/resources/solis_agile_charge.py:532-574 | the kept and the dropped windows, in order |
| SolisPlan.FilterPartitions | kubernetes/apps/default/solis-charge/app/resources/solis_agile_charge.py:532-574 | every window is either kept or dropped, once, and what is dropped overlaps a slot above the cap |
| SolisPlan.FilterKeepsTheClean | kubernetes/apps/default/solis-charge/app/resources/solis_agile_charge.py:532-574 | a window is kept exactly when no slot above the cap shares an instant with it |
| SolisPlan.VerifyWrittenSlotsAreCheap | kubernetes/apps/default/solis-charge/app/resources/solis_agile_charge.py:738-802 | the round-trip check: abort on a start that does not come back, free windows kept, others kept when neither probe is too dear |
| SolisPlan.RoundTripKeepsTheCheap | kubernetes/apps/default/solis-charge/app/resources/solis_agile_charge.py:738-802 | for a zone of whole minutes the check never aborts; it keeps free windows always and any other exactly when neither the minute of its start nor the one before its end is priced above the cap by the first slot that covers it |
| SolisPlan.StartComesBack | kubernetes/apps/default/solis-charge/app/resources/solis_agile_charge.py:1024-1037 | in any zone of whole minutes the written HH:MM re-derives to the minute it came from |
| SolisPlan.BuildWindows | kubernetes/apps/default/solis-charge/app/resources/solis_agile_charge.py:1421-1475 | steps 4 to 5.5: cheap runs, filter, merge with free sessions, split, cap, round trip; saving sessions merged, split and cut to three |
| SolisPlan.CapKeeps | kubernetes/apps/default/solis-charge/app/resources/solis_agile_charge.py:1440-1446 | at most three windows stay, all of them from the list, in start order when there was a choice |
| SolisPlan.CapPrefersFree | kubernetes/apps/default/solis-charge/app/resources/solis_agile_charge.py:1440-1446 | a free window is only left out for other free ones |
| SolisPlan.CapKeepsEarliest | kubernetes/apps/default/solis-charge/app/resources/solis_agile_charge.py:1440-1446 | with no free window the first three stay |
| SolisPlan.CapIsTheFirstThree | kubernetes/apps/default/solis-charge/app/resources/solis_agile_charge.py:1440-1446 | of windows in order exactly those stay that fewer than three others go before, free ones first and earlier ones first, so all three places are filled if they can be |
| SolisPlan.PlanIsTheFirstThree | kubernetes/apps/default/solis-charge/app/resources/solis_agile_charge.py:1438-1475 | for a non-overlapping feed the plan is exactly the first three pieces, in that order, of the merged free sessions and cheap runs, and every instant of those but the last minute of an inverter day is in a piece |
| SolisPlan.WrittenWindowsAreClean | kubernetes/apps/default/solis-charge/app/resources/solis_agile_charge.py:1421-1475 | whatever the feed, a written window that is not free has no instant in a slot above the cap and passes both probes |
| SolisPlan.SavingSessionsAreArmed | kubernetes/apps/default/solis-charge/app/resources/solis_agile_charge.py:1448-1453 | the discharge ranges are at most three, in order and inside the saving sessions, and leave out nothing but the last minute of an inverter day unless there are three and it lies after the last |
| SolisPlan.EndToEndPriceSafety | kubernetes/apps/default/solis-charge/app/resources/solis_agile_charge.py:1421-1484 | prices and fitting sessions, of which the merged windows split cleanly, planned, split, capped and written as bare HH:MM in the zone recovered from the clock: at any instant up to a horizon of at most 23 h, at any clock distance that reads as that zone, a written range runs only while the clock stands at a moment at most 25 minutes away that lies in its own window, in an eligible slot at or below the cap or a free session, and under no dearer slot of a non-overlapping feed |
| SolisPlan.FeedPriceSafety | kubernetes/apps/default/solis-charge/app/resources/solis_agile_charge.py:326-373 | the same from the feeds as read, for half-hour non-overlapping feeds |
| SolisPlan.WrittenRangesAreInOrder | kubernetes/apps/default/solis-charge/app/resources/solis_agile_charge.py:985-1021 | a plan has at most three ranges, and when the merged windows split cleanly each has its start before its end on one inverter day |
| SolisPlan.DischargeRangesAreInOrder | kubernetes/apps/default/solis-charge/app/resources/solis_agile_charge.py:1448-1453 | the same of the discharge ranges that saving sessions become |
| SolisPlan.FreshSessionsSplitCleanly | kubernetes/apps/default/solis-charge/app/resources/solis_agile_charge.py:1438-1439 | the merged windows split cleanly when no session begins in the last minute of an inverter day or began before a midnight that is over |
| SolisPlan.SessionBeyondCutoffIsUnsafe | kubernetes/apps/default/solis-charge/app/resources/solis_agile_charge.py:419-438 | a free session for tomorrow inside the 36 h horizon is written and an exact UTC clock runs it today in a slot above the cap: the hypothesis on sessions is needed |
| SolisPlan.SafetyNetsNeverFire | kubernetes/apps/default/solis-charge/app/resources/solis_agile_charge.py:532-574 | for a non-overlapping feed the expensive filter drops nothing, the re-derivation never fails and the probes drop nothing, so the plan is exactly the capped, split, merged windows |
| SolisPlan.CurrentCheapSlotIsArmed | kubernetes/apps/default/solis-charge/app/resources/solis_agile_charge.py:1439-1446 | with no session in play, at any planning instant inside an eligible slot every instant of that slot is in the plan, but for the minute before the inverter's midnight |
| SolisPlan.TomorrowOnlyExtends | kubernetes/apps/default/solis-charge/app/resources/solis_agile_charge.py:466-512 | slots that come after keep every window chosen without them, except that the last may reach further |
| SolisPlan.TomorrowDisplacesNothing | kubernetes/apps/default/solis-charge/app/resources/solis_agile_charge.py:357-373 | reading tomorrow's feed keeps every window that today's would give, in its place, except that the last may reach further |
| InverterWriter.Inverter.Control | kubernetes/apps/default/solis-charge/app/resources/solis_agile_charge.py:936-953 | a control POST: acknowledged ones took effect, others may or may not have; a bit is set in the register value sent along |
| InverterWriter.Inverter.Write | kubernetes/apps/default/solis-charge/app/resources/solis_agile_charge.py:919-962 | whatever the attempts do, no register but the one written changes, a normal return means it holds the value, a returned echo is the live register, and a forced write returns normally only after an acknowledged POST; only a busy answer is tried again, after a read that did not find the value, and it raises only on a read that does, a refusal or four busy answers |
| InverterWriter.Plan | kubernetes/apps/default/solis-charge/app/resources/solis_agile_charge.py:1155-1177 | switch-offs, then values, then switch-ons, each only where needed or forced |
| InverterWriter.PlannedIffNeeded | kubernetes/apps/default/solis-charge/app/resources/solis_agile_charge.py:1155-1177 | a write is planned exactly when the plan wants its value and everything is rewritten or the value is not known to be there, by a live read for a slot that is to run and by the cache for one that is not |
| InverterWriter.WritesAreRanked | kubernetes/apps/default/solis-charge/app/resources/solis_agile_charge.py:1155-1177 | switch-offs, then values, then switch-ons, slot by slot and current before window, none of them twice |
| InverterWriter.PostNext | kubernetes/apps/default/solis-charge/app/resources/solis_agile_charge.py:1184-1195 | posting the next planned write leaves the registers at a stopping point whatever the call does, and on success just after that write, with the live switch register known |
| InverterWriter.Execute | kubernetes/apps/default/solis-charge/app/resources/solis_agile_charge.py:1184-1195 | every POST of a run leaves the registers just before or just after the planned write it makes, so the threaded register value is always the live one |
| InverterWriter.ReadBack | kubernetes/apps/default/solis-charge/app/resources/solis_agile_charge.py:1197-1213 | the read-back is bad exactly when a switch or an enabled slot's value is not as planned |
| InverterWriter.Apply | kubernetes/apps/default/solis-charge/app/resources/solis_agile_charge.py:1128-1218 | a run stays on the plan's track wherever it stops; a normal end leaves the inverter programmed and the read-back never finds a mismatch; it fails only on a read that raises, a refusal or four busy answers, and ends normally if every POST is acknowledged and every read answers |
| InverterWriter.PartialFailureSafety | kubernetes/apps/default/solis-charge/app/resources/solis_agile_charge.py:1100-1103 | once any window or current has been posted no slot the plan disables is on; once any switch-on has been posted every enabled slot already holds its planned window and current |
| InverterWriter.NothingElseMoves | kubernetes/apps/default/solis-charge/app/resources/solis_agile_charge.py:1184-1195 | at every stopping point each switch, window and current is as found or as planned, and bits of slots the program never touches are as found |
| InverterWriter.FullRunPrograms | kubernetes/apps/default/solis-charge/app/resources/solis_agile_charge.py:1128-1218 | a run that gets through leaves every switch as planned and every enabled slot with its window and current |
| InverterWriter.ProgrammedSlots | kubernetes/apps/default/solis-charge/app/resources/solis_agile_charge.py:1076-1095 | a programmed inverter has just the planned windows on, one to a slot and at 50 A, and each runs when its clock stands at an instant of it |
| InverterWriter.NothingToWriteIff | kubernetes/apps/default/solis-charge/app/resources/solis_agile_charge.py:1155-1180 | nothing is written exactly when no rewrite is forced, every switch is as planned and all known values are the planned ones |
| InverterWriter.StaleNextToNewIff | kubernetes/apps/default/solis-charge/app/resources/solis_agile_charge.py:1100-1103 | a stale slot can be live next to a new one exactly when two slots are on, stay on and change their windows |
| InverterWriter.StaleNextToNewHappens | kubernetes/apps/default/solis-charge/app/resources/solis_agile_charge.py:1100-1103 | an input on which that happens: slots 1 and 2 are on and move from 00:00-01:00 to 02:00-03:00 |
| InverterWriter.ClearedNeverCharges | kubernetes/apps/default/solis-charge/app/resources/solis_agile_charge.py:1221-1223 | a cleared schedule lets no charge slot run at any clock reading |
| InverterWriter.ProgrammedInverterIsSafe | kubernetes/apps/default/solis-charge/app/resources/solis_agile_charge.py:1421-1484 | the whole chain from prices to a programmed inverter: whenever a charge slot may run within the horizon, the moment its clock stands at is paid for and at most 25 minutes away |
| InverterWriter.ProgrammedInverterCharges | kubernetes/apps/default/solis-charge/app/resources/solis_agile_charge.py:1421-1484 | the other half of the chain, with no session in play: once programmed, a charge slot runs at 50 A at every instant of a slot that is cheap now, but for the minute before the inverter's midnight |
| AlertQueue.Collect | kubernetes/apps/monitoring/exporters/homeassistant/app/bridge.py:608-610 | the sorted changes of a snapshot |
| AlertQueue.ChangesAreDetermined | kubernetes/apps/monitoring/exporters/homeassistant/app/bridge.py:608-623 | one firing per new unsuppressed alert, one resolution per observed alert that is gone, in the sort order, and no other list is possible |
| AlertQueue.EventsAre | kubernetes/apps/monitoring/exporters/homeassistant/app/bridge.py:608-610 | the events are, field by field, a firing for every alert that is there, unsuppressed and new, and a resolution for every observed one that is gone, critical first, then firing, then by id |
| AlertQueue.ApplyChanges | kubernetes/apps/monitoring/exporters/homeassistant/app/bridge.py:614-623 | going through the changes gives the observed map that keeps what is still there and adds what is new |
| AlertQueue.ObservationKeepsLog | kubernetes/apps/monitoring/exporters/homeassistant/app/bridge.py:607-635 | per alert id the log of events alternates, an alert is observed exactly when its last event is firing, and the history is the first 50 of the newest-batch-first log |
| AlertQueue.ObservedIsBounded | kubernetes/apps/monitoring/exporters/homeassistant/app/bridge.py:607-635 | the observed ids stay inside the snapshot just accepted, so there are never more than 2000 |
| AlertQueue.ChangesFitEmptyQueue | kubernetes/apps/monitoring/exporters/homeassistant/app/bridge.py:611-612 | with an empty queue the count check cannot refuse a snapshot |
| AlertQueue.DeliveryTakesExactlyTheDigest | kubernetes/apps/monitoring/exporters/homeassistant/app/bridge.py:637-656 | removing by id and status removes exactly the events of the digest: every held-back suppressed event stays and nothing else does |
| AlertQueue.ObservingKeeps | kubernetes/apps/monitoring/exporters/homeassistant/app/bridge.py:607-635 | an accepted observation is on disk with no error noted, a refused one has touched nothing, and the count never refuses while the queue is empty |
| AlertQueue.ObservingTakes | kubernetes/apps/monitoring/exporters/homeassistant/app/bridge.py:607-635 | an observation is refused exactly when it would make more than 4000 queued events or a state that does not fit; any other is queued, leads the history of fifty and becomes what is observed, and is accepted exactly when nothing is to be saved or the save works |
| AlertQueue.DeliveringKeeps | kubernetes/apps/monitoring/exporters/homeassistant/app/bridge.py:637-656 | each event of a digest was in the queue on disk when it was sent, and a delivery that ends well leaves disk and memory equal |
| AlertQueue.DeliveringSends | kubernetes/apps/monitoring/exporters/homeassistant/app/bridge.py:637-656 | one notify call exactly when some queued event is due, with every event whose alert is gone or not suppressed, in order of urgency; after success only suppressed events stay, otherwise all of them |
| AlertQueue.CyclingKeeps | kubernetes/apps/monitoring/exporters/homeassistant/app/bridge.py:658-694 | with any save and notify failure or death inside it, a cycle keeps the disk sound, and one that ends keeps the process healthy: no error noted and a file present mean disk equals memory; alerts are reported only after an accepted observation, with disk and memory equal |
| AlertQueue.GoodCycleDelivers | kubernetes/apps/monitoring/exporters/homeassistant/app/bridge.py:658-694 | a cycle whose observation is not refused, whose saves work and whose notify call succeeds goes on to report, and all it observed and all that was queued is in its one digest but for what is suppressed |
| AlertQueue.GoodCycleAnnounces | kubernetes/apps/monitoring/exporters/homeassistant/app/bridge.py:658-694 | such a cycle announces every new unsuppressed alert and every end of an observed one, each with its severity and text |
| AlertQueue.FullCycleDrains | kubernetes/apps/monitoring/exporters/homeassistant/app/bridge.py:658-682 | a refused observation still lets the queue drain, and ends as unavailable |
| AlertQueue.ReportingLeavesOnlySuppressed | kubernetes/apps/monitoring/exporters/homeassistant/app/bridge.py:658-694 | when alerts are reported after an accepted notify call, every event still queued belongs to a suppressed alert of the snapshot |
| AlertQueue.RestartIsHealthy | kubernetes/apps/monitoring/exporters/homeassistant/app/bridge.py:565-584 | whatever a crash leaves on disk passes the load checks, and the process started from it is healthy |
| AlertQueue.EveryRunIsDurable | kubernetes/apps/monitoring/exporters/homeassistant/app/bridge.py:550-682 | over every run with save failures, notify failures and crashes: durable before delivered, delivered at least once, without a crash the events generated are exactly those accepted plus those queued, and what is on disk always loads again |
| AlertQueue.Load | kubernetes/apps/monitoring/exporters/homeassistant/app/bridge.py:565-584 | loading fails exactly on an oversized, malformed or over-limit file, or one with an alert under the wrong id; otherwise it gives what the file says, with an empty queue for a version 1 file and nothing at all for a missing one |
| AlertQueue.AlertBridge.Save | kubernetes/apps/monitoring/exporters/homeassistant/app/bridge.py:586-605 | an oversized state raises and touches nothing; otherwise the file is replaced before or after a failure, or not at all |
| AlertQueue.AlertBridge.Observe | kubernetes/apps/monitoring/exporters/homeassistant/app/bridge.py:607-635 | the new memory, error flag and world are those of the step that ObservingKeeps is about |
| AlertQueue.AlertBridge.Deliver | kubernetes/apps/monitoring/exporters/homeassistant/app/bridge.py:637-656 | the new memory and world are those of the step that DeliveringKeeps and DeliveringSends are about |
| AlertQueue.AlertBridge.Cycle | kubernetes/apps/monitoring/exporters/homeassistant/app/bridge.py:658-682 | how the cycle ends (died, unavailable, goes on to report), the new process and the new world are those of the step that CyclingKeeps is about |
| RtcSessions.SessionManager.Close | apps/homeassistant/alexa/rtc_bridge/custom_components/alexa_rtc_bridge/session.py:104-121 | closes this session only, unmaps it only if it is the one mapped, disarms its timer, and tells the camera once |
| RtcSessions.SessionManager.Stop | apps/homeassistant/alexa/rtc_bridge/custom_components/alexa_rtc_bridge/session.py:123-127 | marks the manager as stopping and closes every mapped session |
| RtcSessions.SessionManager.CameraUnavailable | apps/homeassistant/alexa/rtc_bridge/custom_components/alexa_rtc_bridge/__init__.py:120-128 | closes every mapped session of the camera |
| RtcSessions.NothingStartsOnceStopped | apps/homeassistant/alexa/rtc_bridge/custom_components/alexa_rtc_bridge/session.py:81-156 | once the manager is stopping, every request that arrives is refused and no session is made any more, not even for requests admitted before |
| RtcSessions.SessionManager.Enter | apps/homeassistant/alexa/rtc_bridge/custom_components/alexa_rtc_bridge/session.py:131-156 | initiate between its first and second yield: refusals, the repeated offer, the capacity check, the reserved session |
| RtcSessions.SessionManager.Resume | apps/homeassistant/alexa/rtc_bridge/custom_components/alexa_rtc_bridge/session.py:157-168 | initiate after its negotiation, as the step that GoodNegotiationIsAnswered and FailedNegotiationCloses are about |
| RtcSessions.SessionManager.Release | apps/homeassistant/alexa/rtc_bridge/custom_components/alexa_rtc_bridge/session.py:261-269 | disconnected after its yield: only the owner's session is closed |
| RtcSessions.SteppingKeeps | apps/homeassistant/alexa/rtc_bridge/custom_components/alexa_rtc_bridge/session.py:72-269 | every step of the event loop, in any order, keeps sessions, map, camera calls and waiting requests in order |
| RtcSessions.SessionsAreLeft | apps/homeassistant/alexa/rtc_bridge/custom_components/alexa_rtc_bridge/session.py:104-168 | each step leaves each session as it was, but for an open one that it ends (stop, its camera unavailable, its expiry, its negotiation failed, its owner's disconnect) or whose own negotiation it answers |
| RtcSessions.FreshOfferStartsSession | apps/homeassistant/alexa/rtc_bridge/custom_components/alexa_rtc_bridge/session.py:142-156 | exactly an accepted fresh offer, with room and no stop, makes a session: one, reserved under its key and offered to its camera once |
| RtcSessions.RepliesAreRight | apps/homeassistant/alexa/rtc_bridge/custom_components/alexa_rtc_bridge/session.py:131-154 | the reply to every request that starts nothing; to an offer that repeats that of an answered session, for its camera and user, the very answer |
| RtcSessions.GoodNegotiationIsAnswered | apps/homeassistant/alexa/rtc_bridge/custom_components/alexa_rtc_bridge/session.py:157-168 | a good negotiation of a session still open is answered with its text; the session stays open and mapped for 600 seconds more and the camera hears nothing |
| RtcSessions.FailedNegotiationCloses | apps/homeassistant/alexa/rtc_bridge/custom_components/alexa_rtc_bridge/session.py:157-164 | one that failed or was cancelled frees the key and tells the camera |
| RtcSessions.RepeatedOfferGetsTheAnswer | apps/homeassistant/alexa/rtc_bridge/custom_components/alexa_rtc_bridge/session.py:142-152 | whatever runs in between, while the session is open the same offer for the same camera and user gets the same answer |
| RtcSessions.OfferIsServed | apps/homeassistant/alexa/rtc_bridge/custom_components/alexa_rtc_bridge/session.py:129-168 | when nothing stands in its way an offer for a configured camera is looked up, given a session, negotiated and answered, and the session is open under its key |
| RtcSessions.OnlyConfiguredCamerasAreAsked | apps/homeassistant/alexa/rtc_bridge/custom_components/alexa_rtc_bridge/session.py:81-83 | in every run every session is one of a configured camera |
| RtcSessions.EverySessionClosesOnce | apps/homeassistant/alexa/rtc_bridge/custom_components/alexa_rtc_bridge/session.py:104-168 | in every interleaving a session is open exactly when it is the one mapped under its key; the camera was offered it once and told to close it exactly once if it is closed; under each key offers and closes take turns |
| RtcSessions.LateInitiateHarmsNobody | apps/homeassistant/alexa/rtc_bridge/custom_components/alexa_rtc_bridge/session.py:157-164 | however late an initiate resumes, every other session and its mapping are as before, and if its own was closed nothing changes at all |
| RtcSessions.SessionsAreBounded | apps/homeassistant/alexa/rtc_bridge/custom_components/alexa_rtc_bridge/session.py:153-161 | at every yield point at most fourteen sessions are mapped, each unanswered and negotiating or answered with an armed expiry |
| RtcSessions.AgesAreBounded | apps/homeassistant/alexa/rtc_bridge/custom_components/alexa_rtc_bridge/session.py:161-205 | if no timer is late, no mapped session is older than the negotiation deadline plus the session duration, and no unanswered one older than the deadline |
| RtcSessions.StoppedForever | apps/homeassistant/alexa/rtc_bridge/custom_components/alexa_rtc_bridge/session.py:123-127 | after a stop no session is ever open again, whatever was in flight |
| RtcSessions.AnswersStayWithTheirOwner | apps/homeassistant/alexa/rtc_bridge/custom_components/alexa_rtc_bridge/session.py:142-152 | an answer is only ever handed to a request with the key, camera, user and offer it was negotiated for |
| RtcSessions.OwnerDisconnectsIff | apps/homeassistant/alexa/rtc_bridge/custom_components/alexa_rtc_bridge/session.py:255-269 | a disconnect closes an open session exactly when it comes for its key from its camera and user and is not refused; then the key is free, the camera is told and the reply says so |
| Replication.Hub.Pub | apps/baywatch/agent/hub.go:35-44 | every channel with room gets the event, a full one loses it |
| Replication.JoinerGetsWhatFollows | apps/baywatch/agent/hub.go:18-44 | a subscriber that joins gets exactly what is published from then on, in order, as far as its channel has room |
| Replication.Agent.Index | apps/baywatch/agent/main.go:384-397 | the last published bay under each key, nothing before the first snapshot |
| Replication.IndexIsLast | apps/baywatch/agent/main.go:384-397 | the index has the last bay under each key and no other key |
| Replication.Agent.Reconcile | apps/baywatch/agent/main.go:211-310 | the published snapshot, which shows the readings, and one event to every subscriber for each bay that changed |
| Replication.PublishedShows | apps/baywatch/agent/main.go:211-299 | the snapshot has one bay for each reading, in the order of their numbers: empty without a drive, faulty with a bad one, healthy with a good one, and the rest as read |
| Replication.DiffIsWhatChanged | apps/baywatch/agent/main.go:289-291 | the events are the bays of the new snapshot that differ from the old one in a compared field, all of them when there was none |
| Replication.Fleet.ApplySnapshot | apps/baywatch/ui/fleet.go:137-152 | the host is replaced by the snapshot, with its counts |
| Replication.Fleet.ApplySlot | apps/baywatch/ui/fleet.go:154-176 | an event replaces the bay it names and the counts are taken again; for an unknown host nothing happens |
| Replication.Fleet.Recount | apps/baywatch/ui/fleet.go:223-240 | the header counts of all bays |
| Replication.CountsAreNumbers | apps/baywatch/ui/fleet.go:223-240 | the counts are the numbers of bays with a drive, with a fault, with a locate and without a drive |
| Replication.ApplyPuts | apps/baywatch/ui/fleet.go:163-172 | an event changes exactly the bays with its key |
| Replication.AgreesIffSettles | apps/baywatch/ui/fleet.go:137-176 | once the events are applied a view agrees with a snapshot, in every compared field and in the counts, exactly when each bay of it settles |
| Replication.StepIsGood | apps/baywatch/agent/main.go:297-309 | every step of agent, channel and UI keeps what is on its way enough to bring the view up to the snapshot |
| Replication.SubscriberConverges | apps/baywatch/agent/main.go:432-473 | wherever a subscription lands in a reconcile cycle and however stale the queued events, the UI's view ends up equal to the snapshot in every compared field and in the counts, if the channel lost nothing and the UI has a view |
| Replication.UiShowsTheReadings | apps/baywatch/agent/main.go:211-310 | once everything is applied the UI has a bay for every reading of the last reconcile, with its state, fault, locate, device, temperature, labels and reason |
| Replication.UiCanCatchUp | apps/baywatch/agent/main.go:432-473 | from every state of a connection with a view and no lost event, taking what is on its way step by step brings the UI there |
| Replication.LostEventMattersIff | apps/baywatch/agent/hub.go:35-44 | publishing an event leaves the view on its way to the snapshot exactly when the channel has room, or what is on its way without the event leaves its bay as the snapshot has it |
| Replication.StaleUntilItChanges | apps/baywatch/agent/hub.go:5-8 | a bay on its way to the wrong state stays so through everything that is published and applied, as long as the connection lasts and the bay does not change |
| Replication.LossHappens | apps/baywatch/agent/hub.go:35-44 | a run from the start that loses such an event: one bay changes 64 times while the subscriber is slow, then the other changes once |
| Replication.EarlyJoinerIsStranded | apps/baywatch/ui/fleet.go:154-160 | through any part of a connection after the greeting, the UI is without a view at the end exactly when it was at the beginning |
| Replication.StrandedIff | apps/baywatch/agent/main.go:445-473 | for every run up to a greeting and all that follows in the connection, the UI is without a view exactly when at the greeting there was no snapshot and no view from an earlier connection |
| UsageStore.Store.constructor | kubernetes/apps/monitoring/exporters/cliproxy/app/resources/cliproxy-exporter.py:202-207 | the known pairs of an opened store are those of its requests table |
| UsageStore.Store.Apply | kubernetes/apps/monitoring/exporters/cliproxy/app/resources/cliproxy-exporter.py:221-265 | one transaction: everything counted and the new pairs known, or after a failure at any record nothing changed at all |
| UsageStore.Store.FindPair | kubernetes/apps/monitoring/exporters/cliproxy/app/resources/cliproxy-exporter.py:212-219 | a pair is folded exactly when it is neither known nor pending and the cap is reached |
| UsageStore.Poller.PollOnce | kubernetes/apps/monitoring/exporters/cliproxy/app/resources/cliproxy-exporter.py:366-389 | however the pops are cut into batches and wherever the poll fails, the store ends as after one transaction with every committed record, and the counter of records grows by the valid ones |
| UsageStore.PollGoesOn | kubernetes/apps/monitoring/exporters/cliproxy/app/resources/cliproxy-exporter.py:366-389 | a poll commits the batches of its first rounds, whole and in order, until it is stopped, a fetch or commit fails, or a batch falls short, and ends badly only on a failure |
| UsageStore.BatchesAdd | kubernetes/apps/monitoring/exporters/cliproxy/app/resources/cliproxy-exporter.py:221-265 | applying two batches one after the other equals applying their concatenation |
| UsageStore.PairsAreBounded | kubernetes/apps/monitoring/exporters/cliproxy/app/resources/cliproxy-exporter.py:212-219 | the tables never hold more label pairs than the cap and the overflow pair |
| UsageStore.RunningIsOk | kubernetes/apps/monitoring/exporters/cliproxy/app/resources/cliproxy-exporter.py:201-265 | in every history of commits, rollbacks and restarts the pairs known are those of the tables but for the overflow pair, within the cap |
| UsageStore.EveryEntryIsRight | kubernetes/apps/monitoring/exporters/cliproxy/app/resources/cliproxy-exporter.py:201-265 | in every history each entry of each table is the number or sum over the committed records with its key; the first pairs to turn up, as many as the cap, keep their labels and all others are folded |
| UsageStore.OverflowIsRight | kubernetes/apps/monitoring/exporters/cliproxy/app/resources/cliproxy-exporter.py:207-265 | without records labelled as overflow, the overflow counter is the number of committed records that are folded |
| UsageStore.ReportIsRight | kubernetes/apps/monitoring/exporters/cliproxy/app/resources/cliproxy-exporter.py:221-265 | a transaction reports the numbers of its valid and of its other records |
| UsageStore.RestartChangesOnlyOverflow | kubernetes/apps/monitoring/exporters/cliproxy/app/resources/cliproxy-exporter.py:207-218 | reloading the pairs changes no later count but the overflow counter, by exactly the later records whose own labels are the overflow labels, and only if the overflow pair was in the tables without being known |
| UsageStore.RestartShowsInOverflow | kubernetes/apps/monitoring/exporters/cliproxy/app/resources/cliproxy-exporter.py:207-218 | an input on which a restart changes the overflow counter |
| UsageStore.BatchingAndRestartsAreInvisible | kubernetes/apps/monitoring/exporters/cliproxy/app/resources/cliproxy-exporter.py:201-265 | without records labelled as overflow, every history leaves what one transaction with all committed records leaves |
| UsageStore.CountersConserve | kubernetes/apps/monitoring/exporters/cliproxy/app/resources/cliproxy-exporter.py:228-254 | requests plus invalid equal the records committed, tokens and latencies add up to what was reported, and each pair has as many durations as requests |
| Tariffs.MergeRates | apps/homeassistant/alexa/electricity/tariffs.py:151-168 | the loop over the sorted feeds |
| Tariffs.MergeIsSound | apps/homeassistant/alexa/electricity/tariffs.py:151-168 | merging fails exactly when two slots conflict or overlap; otherwise it returns slots of the feeds one after the other, one for every slot fed in |
| Tariffs.MergeErrorsAreRight | apps/homeassistant/alexa/electricity/tariffs.py:151-168 | a conflict means two prices for one slot, an overlap two different slots that share an instant |
| Tariffs.WindowAverage | apps/homeassistant/alexa/electricity/tariffs.py:194-217 | the sums over overlaps and the check on covered seconds; an empty window is refused |
| Tariffs.SlotsOrSeconds | apps/homeassistant/alexa/electricity/tariffs.py:207-214 | the slot-by-slot sums equal the second-by-second ones |
| Tariffs.AverageIff | apps/homeassistant/alexa/electricity/tariffs.py:215-217 | an average exists exactly when every instant of the window is covered |
| Tariffs.AverageIsExact | apps/homeassistant/alexa/electricity/tariffs.py:194-217 | it is then the time integral of the price divided by the length, between any bounds on the prices that overlap the window |
| Tariffs.ChartSlots | apps/homeassistant/alexa/electricity/tariffs.py:220-237 | the loop that skips slots outside the horizon and stops at the first gap |
| Tariffs.ChartIsRight | apps/homeassistant/alexa/electricity/tariffs.py:220-237 | with a slot covering now the chart begins with it, has no gap, goes on to the six hours or the first uncovered instant, and is truncated exactly when some instant of them is not covered |
| Tariffs.ExtremesAreEarliest | apps/homeassistant/alexa/electricity/tariffs.py:256-257 | cheapest and peak are extremes of the chart, the earliest of equals |
| Tariffs.SlotCovering | apps/homeassistant/alexa/electricity/tariffs.py:186-191 | a slot covering now is found exactly when there is one |
| Tariffs.BuildBriefing | apps/homeassistant/alexa/electricity/tariffs.py:240-267 | from slots that share no instant, in any order: no briefing exactly when nothing covers now; otherwise the current slot leads a contiguous chart of at most thirteen half-hours, correctly flagged, with the earliest extremes and the averages of this and the next full hour |
| SdpCandidates.EmbedCandidates | apps/homeassistant/alexa/rtc_bridge/custom_components/alexa_rtc_bridge/sdp.py:23-67 | the loops over media lines, mids, candidates and sections compute the rewritten text |
| SdpCandidates.ParseBack | apps/homeassistant/alexa/rtc_bridge/custom_components/alexa_rtc_bridge/sdp.py:25-26 | lines put together from sections are cut into the same sections again |
| SdpCandidates.SectionsAreRight | apps/homeassistant/alexa/rtc_bridge/custom_components/alexa_rtc_bridge/sdp.py:23-67 | in the text that is written sections keep their number, order and media lines; each IPv4 candidate is once in the section it belongs to, the last with its mid or else the one with its index; each section ends with its only end-of-candidates line; nothing else is added and nothing but duplicates, end lines and foreign candidates is removed |
| SdpCandidates.RouteIs | apps/homeassistant/alexa/rtc_bridge/custom_components/alexa_rtc_bridge/sdp.py:35-48 | a candidate is routed to a section exactly when it is an IPv4 one that belongs there |
| SdpCandidates.LinesKeepTheirOrder | apps/homeassistant/alexa/rtc_bridge/custom_components/alexa_rtc_bridge/sdp.py:55-66 | in each section the lines that stay come first, in their order, then the candidates, in theirs, then the end line, and of each line the first stands |
| SdpCandidates.HeadStays | apps/homeassistant/alexa/rtc_bridge/custom_components/alexa_rtc_bridge/sdp.py:49-54 | what comes before the first section stays, in its order, but for foreign candidates |
| SdpCandidates.NoForeignCandidatesIff | apps/homeassistant/alexa/rtc_bridge/custom_components/alexa_rtc_bridge/sdp.py:23-67 | no candidate line that is not IPv4 is left anywhere in the text, exactly when it has a media section or had none of them to begin with |
| SdpCandidates.LinesOfJoin | apps/homeassistant/alexa/rtc_bridge/custom_components/alexa_rtc_bridge/sdp.py:25-67 | the text written reads back as the lines it was made of |
| SdpCandidates.LinesOfLf | apps/homeassistant/alexa/rtc_bridge/custom_components/alexa_rtc_bridge/sdp.py:25-25 | text with bare line feeds, any number of them at its end, reads as its lines |
| SdpCandidates.EmbeddedReadsBack | apps/homeassistant/alexa/rtc_bridge/custom_components/alexa_rtc_bridge/sdp.py:23-67 | the written text reads back, line by line, as what was computed, for any text |
| SdpCandidates.EmbeddingTwice | apps/homeassistant/alexa/rtc_bridge/custom_components/alexa_rtc_bridge/sdp.py:23-67 | embedding again, the same candidates or none, gives the same text, for any text |

## Left out

- Windows.MergeWindows: the tag text is reduced to whether a window is free, the only part of it any decision reads.
- SolisFeeds.FindCheapWindows: the average rate and slot count of a window are not modelled; they are printed and not decided on.
- SolisPlan.EndToEndPriceSafety: assumes half-hour slots, a zone of whole hours (which the clock check enforces) and sessions inside the cutoff whose merged windows split cleanly; sub-second instants are not modelled.
- SolisPlan.BuildWindows: saving sessions become discharge windows as in the source, but no price property is claimed of them.
- InverterWriter.Inverter.Control: an acknowledged control call is taken to have had its effect, an unacknowledged one to have had it before the following read or never; reads are truthful; nobody else writes to the inverter meanwhile.
- InverterWriter.Inverter.Write: the register echo is a parsed value or nothing; the string forms of values and of the Modbus echo are not modelled.
- AlertQueue.AlertBridge.Save: the byte limit is any predicate that stays true when queued events are dropped; the JSON encoding, the temporary file and fsync are one replacement that may fail before or after it happens.
- AlertQueue.AlertBridge.Cycle: how a cycle ends is modelled, what it then publishes to MQTT (availability, discovery, state and attributes) is not.
- AlertQueue.AlertBridge.constructor: starts from a file that `Load` accepts; the runs begin without a file, so none of them starts from a migrated version 1 file.
- Replication.Hub.Sub: that a subscriber leaves is a step of the run (`Disconnect`), not a method of the hub.
- RtcSessions.SessionManager.Resume: the inner awaits of the negotiation (task, answer, candidates) are stages of one wait whose result is any answer, a failure or a cancellation; SDP text, hashes and the camera are opaque.
- RtcSessions.AgesAreBounded: the event loop's clock advances only up to the next timer that is due; with late timers no age is bounded.
- RtcSessions.SessionManager.Close: Session objects are entries of a table, referred to by index, so aliasing is by index; an exception from the camera's close is swallowed by the source and has no effect in the model.
- Replication.SubscriberConverges: the bays are a fixed set, each under one key; fields that `changed` does not compare (serial, model, size, pool, component, the value of a locate deadline) reach the UI only with a snapshot or with another change.
- Replication.Agent.Reconcile: reading the hardware and driving the LEDs are not modelled, and neither are more than one host per UI connection and the UI's own browser hub.
- UsageStore.Store.Apply: latencies are whole milliseconds, not floating-point seconds; a record is what `parse_record` makes of it; SQLite's own failures are a raise at some record or at the end.
- UsageStore.Poller.PollOnce: HTTP, backoff and the rendered text are not modelled.
- Tariffs.AverageIsExact: prices are integers and the quotient is exact; rounding of Decimal division is not modelled, and neither are bounds that are not whole seconds.
- Tariffs.BuildBriefing: takes half-hour slots that share no instant, which `merge_rates` makes sure of; labels, time zones and formatting are not modelled.
- SdpCandidates.EmbedCandidates: whether the fifth word of a candidate is an IPv4 address is an arbitrary predicate.
- The charge-outcome check, storage mode, login, request signing and retries of reads in the Solis job.
- HTTP clients, JSON and ISO parsing, the sensor half of the Home Assistant bridge, PromQL strings and metric rendering.
- fanwatch, the petkit snapshotter, BayWatch's LED writes and everything declarative in the repository.
