# Stellar in Dafny: the depot, restock and Companion API core

Stellar is a Discord bot for an Elite Dangerous community. The community runs
fleet carriers as tritium depots and keeps a few Colonia bridge stations. The bot:

- tracks the tritium each depot holds;
- opens *restock* tasks for haulers when a carrier runs low;
- opens *rescue* tasks for commanders stranded without fuel;
- keeps every depot, task and Frontier account in a Google spreadsheet.

Market data arrives from three places:

- the EDDN relay, as commodity snapshots;
- the EDSM and INARA web sites, as periodic passes;
- Frontier's Companion API (CAPI), polled by a worker for the carriers whose owners have signed in.

This Dafny project models the part of the bot that decides things:

- **Values.** Goods, markets, systems, depots, tasks and the string enums (`enums.dfy`, `goods.dfy`, `depots.dfy`, `tasks.dfy`), with their derived attributes: the tritium lookup, the stock bracket and the status colour.
- **Restock service** (`restocks.dfy`). It opens a restock task when a carrier's stock falls to its reserve. It tracks delivered and required tritium, closes the task at 80 %, and lets haulers join and leave.
- **Rescue service** (`rescues.dfy`). It handles rescue tasks: opening, rescuer join and leave, and closing.
- **Depot service** (`depot_service.dfy`). It holds the carrier and bridge sets, applies market updates and runs the EDDN, EDSM, INARA and verification passes.
- **CAPI account registry** (`capi_service.dfy`). It stores tokens, refreshes them, signs accounts in and queries fleet carriers.
- **CAPI poll worker** (`capi_worker.dfy`). Each call of `Iteration` is one round of its endless loop.
- **HTTP classification** (`capi_query.dfy`). A CAPI exchange becomes a failure or a body, and a carrier body becomes a market.
- **EDDN listener rules** (`eddn_monitor.dfy`). It covers restart back-off, the schema filter and the commodity sanity checks.
- **Spreadsheet layer.**
  - `sheets.dfy`: cells, the implicit cast, row validation and its message.
  - `google_sheet.dfy`: the column labels, the cell differences and the loaded, local and remote copies.
  - `sheet_table.dfy` and `storage.dfy`: shared row operations.
  - `storage_*.dfy`: the per-sheet codecs for carriers, bridges, restocks, rescues and CAPI accounts.
- **Smaller rules.**
  - `table.dfy`: plain-text tables.
  - `events.dfy`: handler-list events.
  - `statistics.dfy`: ordinals and leaderboards.
  - `patterns.dfy`: the regular expressions of the sheet checks.
  - `text.dfy` and `seqs.dfy`: Python string and sequence helpers.

How the Python maps to Dafny:

- **Mutable records** are Dafny classes whose methods state their whole new state. These are carriers, bridges, restock and rescue tasks, CAPI account records, the services, the sheet and the events.
- **Frozen records** are datatypes.
- **Python sets** are sequences in their fixed but unspecified iteration order. `find` returns the first match in that order.
- **Time** is whole POSIX seconds passed in as a parameter. Sleeps are returned as durations.
- **Network and Google API calls** are parameters that return an outcome value (success, or which failure).
- **Discord effects** are parameters. For example, posting a task returns its message id.
- **Exceptions** are `Err` values of a `Result`.

## Model

| member | source | states |
|---|---|---|
| Depots.StockBracket | common/depots/carrier.py:12-24 | the bracket is 3 from 18750 t (75 % of a 25000 t tank), 2 from 6250 t, 1 for any positive amount and 0 otherwise, each as an if-and-only-if |
| Depots.StockBracketMonotone | common/depots/carrier.py:12-24 | more stock never gives a lower bracket |
| Depots.TritiumOf | common/depots/depot.py:28-31 | `None` exactly when no good of the market is named "tritium"; otherwise the first such good |
| Depots.DepotColour | common/depots/depot.py:33-49 | purple iff the market is older than the expiry window or has no tritium; otherwise green from 15000 t, yellow from 7500 t, red below, each as an if-and-only-if |
| Depots.LabelInjective | common/depots/carrier.py:41-42 | the label `[callsign] name` determines both parts when callsigns hold no `]` |
| Depots.Carrier.constructor | common/depots/carrier.py:27-39 | the fields are the given ones and both statuses start as `None` |
| Depots.Carrier.Colour | common/depots/carrier.py:47-65 | black iff inactive; cyan while a restock is underway, blue while one is pending; purple when away from the deploy system or buying tritium; otherwise the depot colour |
| Depots.Bridge.constructor | common/depots/bridge.py:9-13 | the fields are the given ones |
| Enums.ParseStage | common/enums/stage.py:6-12 | a value that parses is the name of the stage it parses to |
| Enums.StageRoundTrip | common/enums/stage.py:6-12 | every stage's name parses back to that stage |
| Enums.ParseService | common/enums/service.py:6-11 | a value that parses is the name of the service it parses to |
| Enums.ServiceRoundTrip | common/enums/service.py:6-11 | every service's name parses back to that service |
| Goods.MarketFromDict | common/good.py:15-22 | each present key is taken as given; a missing price or quantity becomes 0 and a missing bracket blank |
| Goods.NewGood | common/good.py:34-45 | the name is stored lower-cased (no upper-case letter remains), both market sides come from their dictionaries and the mean price is kept |
| Goods.NewGoodKeepsLowerName | common/good.py:42 | a name that is already lower-case is stored unchanged |
| Tasks.Restock.constructor | common/tasks/restock.py:46-60 | every field holds the given value |
| Tasks.Rescue.constructor | common/tasks/rescue.py:15-27 | every field holds the given value |
| Tasks.RemoveFirst | services/restocks.py:306 | `list.remove` drops exactly one occurrence: one element shorter, and the multiset loses one copy |
| Tasks.JoinThenLeave | services/restocks.py:302-306 | leaving right after joining restores the volunteer list |
| Tasks.ToggleKeepsNoRepeats | services/restocks.py:274-280 | an allowed toggle keeps every volunteer listed at most once and leaves the user listed exactly when the request was a join |
| Restocks.ClosedNeverFound | services/restocks.py:51-55 | a completed or aborted task never answers a default query |
| Restocks.FirstMatch | services/restocks.py:41-62 | the position of the first task whose key matches the query: no earlier task matches, and the one found does |
| Restocks.AppendOpenKey | services/restocks.py:208-221 | adding a pending task for a callsign without an open one keeps at most one open task per callsign, and `find` then returns the new task with status Pending |
| Restocks.CloseKey | services/restocks.py:243-246 | closing a callsign's open task leaves it none and keeps at most one open task per callsign |
| Restocks.Reconcile | services/restocks.py:148-155 | delivered is never negative, the target never shrinks, target minus delivered is the allocation minus the stock, and when stock covers the shortfall nothing but delivered changes |
| Restocks.ReconcileIdempotent | services/restocks.py:148-157 | re-evaluating with the stored target and unchanged stock gives the same delivered amount and target |
| Restocks.PriceOrNone | services/restocks.py:249 | `None` exactly when the price is 0, else the price |
| Restocks.RestockService.FindSpec | services/restocks.py:30-62 | a task found is stored and matches every criterion; `None` exactly when no stored task matches |
| Restocks.RestockService.Find | services/restocks.py:30-62 | returns the first matching task in iteration order |
| Restocks.RestockService.Add | services/restocks.py:88-90 | the task is appended and nothing else changes |
| Restocks.RestockService.RestockStatus | services/restocks.py:113-124 | the stage of the carrier's open task, always Pending or Underway; `None` exactly when none matches |
| Restocks.RestockService.UpdateRestock | services/restocks.py:165-177 | fails with no open task or no tritium; otherwise stores delivered and target on the open task and leaves every key as it was |
| Restocks.RestockService.StoreTarget | services/restocks.py:176-177 | only delivered and required change |
| Restocks.RestockService.FinishTask | services/restocks.py:243-249 | stage, end and sell price set as given; the callsign then has no open task |
| Restocks.RestockService.NewRestock | services/restocks.py:193-221 | fails without tritium; otherwise appends a fresh Pending task with no haulers whose required and initial are the allocated space minus the stock, delivered 0, no sell price, and marks the carrier Pending |
| Restocks.RestockService.CloseRestock | services/restocks.py:229-249 | clears the carrier's status first; fails without tritium or without an open task; otherwise that task becomes Aborted or Complete with end `now` and the sell price or `None` |
| Restocks.RestockService.CloseFound | services/restocks.py:238-249 | the found task gets its closing stage, end and sell price; the carrier's status is cleared |
| Restocks.RestockService.ClearStatus | services/restocks.py:238 | only the carrier's restock status changes, to `None` |
| Restocks.RestockService.TryRestock | services/restocks.py:126-160 | nothing changes for an inactive carrier, one without tritium or one buying tritium; without an open task one opens iff stock ≤ reserve, for the carrier's callsign and display name, in its current system, under the given message id; with one, delivered and target are reconciled and the task closes when 5·delivered ≥ 4·target; the only error is a status naming a task that cannot be found, and it changes nothing; the status stays synchronised with the open task |
| Restocks.FirstMatchOthers | services/restocks.py:145 | a callsign query finds the same position after a change that keeps that callsign's tasks, renames no task and adds only tasks of other callsigns |
| Restocks.RestockService.OpenIfLow | services/restocks.py:138-142 | a task opens exactly when the stock is at most the reserve, and it is the carrier's task in the carrier's current system |
| Restocks.RestockService.EvaluateOpen | services/restocks.py:144-160 | fails only when the status claims a task that `find` does not return; otherwise the task is reconciled |
| Restocks.RestockService.EvaluateFound | services/restocks.py:148-160 | the task holds the reconciled amounts and is closed as Complete exactly at the threshold |
| Restocks.RestockService.CompleteFound | services/restocks.py:157-160 | an open task that the update brings to the threshold holds the reconciled amounts and is closed as Complete at `now` with the sell price; the carrier's data is kept |
| Restocks.RestockService.CanAssignTask | services/restocks.py:263-280 | an unknown message is an error; otherwise a join is allowed iff the user is not a hauler and a leave iff they are |
| Restocks.RestockService.OnHaulerUpdate | services/restocks.py:290-314 | an unknown message is an error, leaving a task one is not on is the `list.remove` error; otherwise the hauler is added or removed, the stage is Underway iff someone hauls, and `status_change` records (callsign, stage) |
| Restocks.RestockService.ToggleHauler | services/restocks.py:302-311 | the haulers are toggled and the stage follows the list |
| Restocks.RestockService.UpdateHauler | services/restocks.py:282-314 | an unknown message is an error that changes nothing; returns false, changing nothing, exactly when the toggle is not allowed; otherwise the hauler is added or removed, the stage is Underway iff someone hauls, the start, end and tritium of the task are kept, `status_change` records (callsign, stage), and no other task changes |
| Rescues.ClosedNeverFound | services/rescues.py:43-47 | a closed task never answers a query that excludes closed tasks |
| Rescues.FirstMatch | services/rescues.py:39-57 | the position of the first matching task: no earlier task matches, and the one found does |
| Rescues.RescueService.FindSpec | services/rescues.py:29-57 | a task found is stored and matches; `None` exactly when none matches |
| Rescues.RescueService.Find | services/rescues.py:29-57 | returns the first matching task in iteration order |
| Rescues.RescueService.Add | services/rescues.py:83-85 | the task is appended and nothing else changes |
| Rescues.RescueService.CanAssignTask | services/rescues.py:108-125 | an unknown message is an error; otherwise a join is allowed iff the user is not a rescuer and a leave iff they are |
| Rescues.RescueService.OnRescuerUpdate | services/rescues.py:135-156 | an unknown message and an impossible leave are errors; otherwise the rescuer is added or removed and the stage is Underway iff someone is on the task |
| Rescues.RescueService.UpdateRescuer | services/rescues.py:127-156 | an unknown message is an error that changes nothing; returns false, changing nothing, exactly when the toggle is not allowed; otherwise the rescuer is added or removed, the stage is Underway iff someone is on the task, the start and end are kept, and no other task changes |
| Rescues.RescueService.NewRescue | services/rescues.py:163-209 | refuses a system without a location; otherwise appends a fresh Pending task with no rescuers, started `now`, carrying the given tritium amount |
| Rescues.RescueService.CloseRescue | services/rescues.py:213-229 | fails iff the client has no open task; otherwise that task becomes Aborted or Complete with end `now`, and no other task changes |
| DepotServices.UpdateCarrier | services/depots.py:53-69 | the carrier's system, market and timestamp become the arguments, then `try_restock` runs with its whole outcome: it fails exactly when the carrier is evaluated and its status names a task `find` does not return, and then nothing else changes; otherwise a carrier without a status opens a task iff at or below its reserve, with the missing tritium, Pending since `now`, no haulers and the message id, and one with a status has its task reconciled and closed at the threshold |
| DepotServices.StoreSnapshot | services/depots.py:62-64 | exactly the system, market and timestamp change |
| DepotServices.UpdateBridge | services/depots.py:62-64 | the bridge's system, market and timestamp become the arguments |
| DepotServices.UpdateDepot | services/depots.py:53-69 | every depot gets the new snapshot; a bridge leaves the tasks untouched, and a carrier has `try_restock` run with the outcome UpdateCarrier states |
| DepotServices.EdsmApplied | services/depots.py:236-244 | the snapshot changes only to a strictly newer overview and never goes back in time; with no time or an old one it is kept |
| DepotServices.EdsmAppliedIdempotent | services/depots.py:236-244 | applying the same overview twice is the same as once |
| DepotServices.InaraId | services/depots.py:260-264 | a URL with an id starts with the INARA station prefix and has more after it |
| DepotServices.InaraIdOfStation | services/depots.py:260-264 | a station URL yields its number, also with one trailing newline, as `$` allows |
| DepotServices.InaraStep | services/depots.py:256-286 | an unpolled carrier is unchanged; a URL without an id is an error; a change only ever takes a non-empty, strictly newer market |
| DepotServices.DepotService.constructor | services/depots.py:157-163 | both collections start empty |
| DepotServices.DepotService.FindCarrierSpec | services/depots.py:82-94 | a carrier found matches every non-empty criterion; `None` exactly when none matches |
| DepotServices.DepotService.FindCarrier | services/depots.py:82-94 | returns the first matching carrier |
| DepotServices.DepotService.FindBridge | services/depots.py:128-132 | a bridge found has the name; `None` exactly when none has |
| DepotServices.DepotService.Depots | services/depots.py:205-213 | all carriers, then all bridges, each exactly once |
| DepotServices.DepotService.DepotsOrdered | services/depots.py:210-211 | the carriers come sorted by display name and the bridges by name |
| DepotServices.DepotService.Pull | services/depots.py:165-171 | the loaded collections replace the old ones and every carrier's restock status is the stage of its open task, or `None` |
| DepotServices.DepotService.SyncStatuses | services/depots.py:170-171 | every carrier's status is synchronised, nothing else of it changes |
| DepotServices.DepotService.SyncStatus | services/depots.py:171 | one carrier's status is synchronised |
| DepotServices.DepotService.Listener | services/depots.py:182-202 | bridges are looked up first; unknown stations and older timestamps are ignored and an equal one is applied; a bridge keeps its system, a carrier keeps its system unless the system name changed, in which case the resolved system is used or the update fails; an applied carrier snapshot is followed by `try_restock` with the outcome UpdateCarrier states |
| DepotServices.DepotService.ListenCarrier | services/depots.py:191-201 | the carrier branch: an older timestamp changes nothing, an unresolved moved system is an error that changes nothing, and otherwise the snapshot is stored and `try_restock` runs on it |
| DepotServices.DepotService.Verify | services/depots.py:215-223 | every carrier's restock task is evaluated and no carrier's data other than its status changes; an evaluated carrier without a status gets `Pending` exactly when its stock is at most its reserve, and then a new task for it, in its system, under its message id; one with a status keeps it or loses it when the task closes; with distinct callsigns, a failure names a carrier whose status claims a task `find` did not return before `verify`, and on success every carrier is as `try_restock` leaves it from what it found before `verify`: the new task's amounts, Pending stage and empty haulers, or its found task reconciled and closed at the threshold |
| DepotServices.DepotService.VerifyVisit | services/depots.py:221-222 | one carrier's `try_restock`: it fails exactly as `try_restock` fails and then changes nothing; on success the carrier is as `try_restock` leaves it from what it found before, other carriers keep their status, and with a callsign only its own tasks change, so every other callsign still finds what it found |
| DepotServices.DepotService.VerifyLoop | services/depots.py:221-222 | the loop over the carriers: it stops at the first failure, which with distinct callsigns names a failing carrier; after every step the carriers so far are evaluated and, with distinct callsigns, visited from what they found at the start |
| DepotServices.DepotService.VerifyStep | services/depots.py:221-222 | one turn of the loop extends the evaluated carriers and, with distinct callsigns, the visited ones by carrier `i`, or fails with carrier `i` failing |
| DepotServices.StepOutcome | services/restocks.py:126-160 | `try_restock`'s outcome for one carrier, restated against what its callsign query found: a failure is the missing task, a success opens the new task or reconciles the found one |
| DepotServices.StepKeepsOthers | services/restocks.py:145 | a step that changes and adds only one callsign's tasks leaves every other callsign's query result as it was |
| DepotServices.PassKeeps | services/depots.py:221-222 | with distinct callsigns, a later step keeps what every earlier step did to its carrier and task |
| DepotServices.DepotService.BeforeOf | services/restocks.py:145 | what a carrier finds is the task the callsign query returns, by its position, and it carries that callsign |
| DepotServices.DepotService.EdsmUpdate | services/depots.py:228-244 | every depot ends with the EDSM overview applied, and no timestamp goes back |
| DepotServices.DepotService.EdsmPass | services/depots.py:233-244 | the loop over the depots, each one applied independently |
| DepotServices.DepotService.EdsmVisit | services/depots.py:234-244 | one depot is updated only from a strictly newer overview |
| DepotServices.DepotService.InaraUpdate | services/depots.py:251-286 | every carrier ends in the state its own INARA step gives; a skip never stops the pass, and an error names a carrier whose step fails |
| DepotServices.DepotService.InaraVisit | services/depots.py:257-286 | one carrier's INARA step: an error is the step's error and changes nothing; when the step writes, the snapshot is stored and `try_restock` runs with the outcome UpdateCarrier states; otherwise neither the carrier nor any task changes |
| DepotServices.DepotService.OnStatusChange | services/depots.py:161-163 | the carrier with the callsign gets the new status; an unknown callsign is an error and changes nothing |
| CapiServices.RefreshStep | services/capi/service.py:118-147 | new tokens store the access token with its expiry and the new refresh token and return true; a refusing endpoint nulls the access token and returns false; a 401 or no answer raises and changes nothing; nothing else of the account changes |
| CapiServices.ServiceOf | services/capi/service.py:220-225 | Frontier iff there is no third-party id, Steam iff it is all digits, Epic iff it is not |
| CapiServices.FleetStep | services/capi/service.py:260-290 | an expired token is refreshed first; EpicFail nulls the token, CapiFail keeps it; an empty payload clears the carrier link; nothing else of the account changes |
| CapiServices.FleetStepFreshToken | services/capi/service.py:264-266 | with an unexpired token the refresh outcome plays no part and `RefreshFail` is never raised |
| CapiServices.UpdateStep | services/capi/service.py:83-113 | an account with a token and a carrier is skipped; a failed refresh stops there; a found carrier sets the link; EpicFail nulls the token; an error leaves the link as it was |
| CapiServices.UpdateStepSettles | services/capi/service.py:84-85 | once an account has a token and a carrier link, another `update` leaves it alone |
| CapiServices.CapiData.constructor | common/capi.py:10-19 | the record holds the given account |
| CapiServices.CapiData.Store | services/capi/service.py:229-235 | all six mutable fields are overwritten by the new account |
| CapiServices.FirstMatch | services/capi/service.py:33-43 | the position of the first record matching the lookup |
| CapiServices.LinkedCarriers | services/capi/service.py:63-65 | every non-empty carrier link is listed and every listed callsign is one |
| CapiServices.CapiService.constructor | services/capi/service.py:49-51 | no records and no sync events |
| CapiServices.CapiService.Pull | services/capi/service.py:53-56 | the loaded records replace the old ones |
| CapiServices.CapiService.Find | services/capi/service.py:33-43 | a record found matches; `None` exactly when none does |
| CapiServices.CapiService.FindOwnAccount | services/capi/service.py:41-43 | with unique customer ids, looking up a record's id finds that record |
| CapiServices.CapiService.GetCarriersLinked | services/capi/service.py:63-65 | a callsign is listed iff it is non-empty and some record links it |
| CapiServices.CapiService.GetState | services/capi/service.py:67-77 | Unlisted iff no record links the callsign, Expired iff the linked record has no access token, Syncing otherwise |
| CapiServices.CapiService.ListedIffLinked | services/capi/service.py:63-77 | a non-empty callsign has a state other than Unlisted iff it is among the listed carriers |
| CapiServices.CapiService.RefreshToken | services/capi/service.py:118-147 | an unknown account raises and changes nothing; otherwise the account takes the refresh step and no other record changes |
| CapiServices.CapiService.GetToken | services/capi/service.py:156-170 | `None` for an unknown commander or a null token; an unexpired token is returned as it is; an expired one is refreshed first and `None` comes back if that fails |
| CapiServices.CapiService.Upsert | services/capi/service.py:227-247 | an existing record for the customer id is overwritten in place; otherwise exactly one fresh record is appended |
| CapiServices.CapiService.AuthAccount | services/capi/service.py:172-250 | true exactly when every call succeeds; false for a refused token exchange, EpicFail or CapiFail, leaving the data unchanged; on success the customer's record holds the new account with the classified service, and `sync` fires only when asked and a carrier was found |
| CapiServices.CapiService.Fleetcarrier | services/capi/service.py:252-290 | `None` for an unknown callsign or a null token; otherwise the account takes the fleet-carrier step and no other record changes |
| CapiServices.CapiService.UpdateOne | services/capi/service.py:83-113 | one account takes the update step and no other record changes |
| CapiServices.CapiService.Update | services/capi/service.py:79-116 | accounts are updated in order until the first raised error; the ones before it took their step, the one at it took its step and the error, the ones after are unchanged |
| CapiWorkers.OldestIndex | services/capi/worker.py:120-125 | a candidate of least update time, and the first such in order, as a stable sort puts first |
| CapiWorkers.Wait | services/capi/worker.py:133-134 | the sleep is never negative and ends no earlier than two hours after the candidate's update, exactly then unless that time has passed |
| CapiWorkers.Backoff | services/capi/worker.py:153-171 | two hours iff the connection failed or CapiFail, one minute iff EpicFail or RefreshFail, and no retry for anything else |
| CapiWorkers.TokenFailStops | services/capi/worker.py:150-171 | a `TokenFail` is not caught and ends the worker |
| CapiWorkers.CapiWorker.constructor | services/capi/worker.py:44-48 | not running, empty cache, no sync events |
| CapiWorkers.CapiWorker.SeededContents | services/capi/worker.py:59-64 | after seeding every listed callsign maps to the tracked carrier's update time or `now`, and other entries are kept |
| CapiWorkers.CapiWorker.ExternalsOfMembers | services/capi/worker.py:91-106 | the external candidates are exactly the listed, untracked, Syncing callsigns, each with its cached time or `now` |
| CapiWorkers.CapiWorker.InternalsOfMembers | services/capi/worker.py:112-115 | the internal candidates are exactly the tracked carriers whose state is Syncing, with their update times |
| CapiWorkers.CapiWorker.OldestAtNone | services/capi/worker.py:122-123 | there is no oldest candidate exactly when no carrier, internal or external, is eligible |
| CapiWorkers.CapiWorker.OldestAtSpec | services/capi/worker.py:108-125 | the oldest candidate is eligible and no eligible internal or external candidate has an older update time |
| CapiWorkers.CapiWorker.CandidatesTimeless | services/capi/worker.py:108-125 | whether any candidate exists does not depend on the clock |
| CapiWorkers.CapiWorker.RoundAtSpec | services/capi/worker.py:127-139 | no jobs iff no candidate; a settled round waits until two hours after the oldest candidate's update and finds the same carrier oldest on waking; otherwise it selects again |
| CapiWorkers.CapiWorker.MarkStates | services/capi/worker.py:56-57 | every tracked carrier's CAPI status becomes its state |
| CapiWorkers.CapiWorker.SeedCache | services/capi/worker.py:59-64 | the cache becomes the seeded one |
| CapiWorkers.CapiWorker.Start | services/capi/worker.py:50-66 | while running nothing changes; otherwise every carrier's status is marked, the cache is seeded and the worker runs |
| CapiWorkers.CapiWorker.Close | services/capi/worker.py:71-78 | the worker no longer runs |
| CapiWorkers.CapiWorker.CacheUpdate | services/capi/worker.py:80-82 | only the callsign's cache entry changes, to the update |
| CapiWorkers.CapiWorker.GetExternal | services/capi/worker.py:91-106 | returns the external candidates |
| CapiWorkers.CapiWorker.GetInternal | services/capi/worker.py:110-115 | returns the internal candidates |
| CapiWorkers.CapiWorker.OldestCarrier | services/capi/worker.py:108-125 | returns the oldest candidate, `None` standing for the `ValueError` |
| CapiWorkers.CapiWorker.Fail | services/capi/worker.py:153-171 | sleeps by the back-off, or stops the worker for an uncaught error |
| CapiWorkers.CapiWorker.Forget | services/capi/worker.py:173-179 | a tracked carrier is made inactive and nothing else of it changes; an external callsign leaves the cache |
| CapiWorkers.CapiWorker.Announce | services/capi/worker.py:187-195 | a tracked carrier's CAPI status is refreshed and `sync` records the payload |
| CapiWorkers.CapiWorker.Handle | services/capi/worker.py:150-196 | the carrier's account is queried as FleetStep gives it, with the account's new token and carrier link, and no other account changes; a failure backs off or stops the worker, with no other change to the worker or carrier; an empty response disables the carrier or forgets the callsign and sleeps a minute; a payload is announced and the worker sleeps a minute |
| CapiWorkers.CapiWorker.React | services/capi/worker.py:153-196 | the reaction to the answer: back off or stop on a failure, forget on an empty answer, announce a payload |
| CapiWorkers.CapiWorker.Iteration | services/capi/worker.py:141-196 | no candidates sleep two hours with nothing changed; a changed choice selects again with nothing changed; a settled target is the oldest candidate on waking, its account is queried and its response handled with Handle's outcome, and every other carrier is left unchanged |
| CapiWorkers.UncachedExternalNeverSettles | services/capi/worker.py:103-136 | as written, an external carrier without a cache entry gets a new update time on every lookup, so the equality check of the re-selection never holds for it |
| CapiWorkers.ExternalSettles | services/capi/worker.py:136 | compared by callsign, the re-selection of an external carrier holds whatever its cache entry |
| Sheets.PyEqEquivalence | utils/sheets.py:218 | cell equality as Python compares values (numbers by value across int, float and bool) is reflexive, symmetric and transitive |
| Sheets.ImplicitCast | utils/sheets.py:22-32 | an int or bool becomes the float of the same value when a float is expected; digit-only text becomes the integer it spells when an int (or bool) is expected; every other value is returned unchanged |
| Sheets.CastProperties | utils/sheets.py:22-32 | casting never changes the number a cell stands for, casting twice is casting once, and a value already of a non-text expected type is left alone unless a float is expected |
| Sheets.CastReadsDigits | utils/sheets.py:28-30 | the decimal text of any natural number, expected as an integer, is read back as that number |
| Sheets.Column | utils/sheets.py:62-66 | `headers.index(key)`: the first column holding the key, and none exactly when the key is not a header |
| Sheets.JudgeCell | utils/sheets.py:68-87 | a blank cell is `None` for an optional key and invalid (with `None`) otherwise; any other cell is cast unless strict, and is loaded exactly when the cast value has the expected type and matches the pattern, the value kept either way |
| Sheets.Judge | utils/sheets.py:62-87 | a missing header makes the key invalid with `None`; a header beyond the end of the row raises `IndexError`, and only then; otherwise the verdict is that of the cell under the header |
| Sheets.LoadedIsWellTyped | utils/sheets.py:68-87 | a loaded value is `None` for an optional key or has the expected type and matches the pattern |
| Sheets.RecordKeeps | utils/sheets.py:63-87 | recording one key's verdict leaves every other key's entry as it was |
| Sheets.RecordKeys | utils/sheets.py:63-87 | recording adds the key to the loaded dictionary or to the invalid one, according to the verdict |
| Sheets.RecordNew | utils/sheets.py:63-87 | a key recorded for the first time holds its verdict |
| Sheets.ValidatedFails | utils/sheets.py:46-89 | `validate_row` raises exactly when some checked key's header lies beyond the end of the row |
| Sheets.ValidatedRecords | utils/sheets.py:46-89 | a successful `validate_row` over distinct keys holds only checked keys, and each checked key is in the dictionary its verdict names with its own value |
| Sheets.CleanLoaded | utils/sheets.py:46-89 | when nothing is invalid, every checked key is loaded with `None` (optional keys only) or a value of its type that its pattern accepts |
| Sheets.CleanJudged | utils/sheets.py:46-89 | when nothing is invalid, every key's loaded value is exactly what judging its cell gives |
| Sheets.ValidatedAsRecords | utils/sheets.py:46-89 | a successful `validate_row` is the recording of every check's verdict in turn |
| Sheets.ValidatedLast | utils/sheets.py:46-89 | a successful `validate_row` over all checks is the one over all but the last, with the last verdict recorded |
| Sheets.RecordAllKeys | utils/sheets.py:46-89 | recording verdicts in turn adds no key other than the recorded ones |
| Sheets.RecordAllHolds | utils/sheets.py:46-89 | recording verdicts of distinct keys in turn keeps every one of them |
| Sheets.RecordsExtend | utils/sheets.py:46-89 | recording one more distinct key keeps the earlier verdicts and adds its own |
| Sheets.AllLoaded | utils/sheets.py:46-89 | a row whose every checked key loads validates with nothing invalid, each key holding its own value |
| Sheets.ValidateRow | utils/sheets.py:35-89 | the loop over the checks computes the fold `Validated`, whose meaning the lemmas above state |
| Sheets.ErrorPersists | utils/sheets.py:66 | once an `IndexError` is raised for a key, later keys do not change the outcome |
| Sheets.TypeName | utils/sheets.py:104-106 | a type's `__name__` holds no line break |
| Sheets.ReprStr | utils/sheets.py:100 | `repr` of a string is quoted with the same quote at both ends and holds no line break |
| Sheets.Expected | utils/sheets.py:102-109 | the "Expected …" clause holds no line break |
| Sheets.MessageHasOneLinePerKey | utils/sheets.py:92-113 | when keys and float texts hold no line break, the message has exactly one line per invalid key, in order, each naming the key, the `repr` of its value and what was expected |
| Sheets.LineHasNoBreak | utils/sheets.py:99-111 | the line of one key has no line break when neither the key nor the float text has one |
| GoogleSheets.IndexLabel | utils/sheets.py:181-189 | the label is empty exactly for negative indices and is made of capital letters only |
| GoogleSheets.LabelIndexOfLabel | utils/sheets.py:181-189 | reading a column label back as bijective base 26 gives its index |
| GoogleSheets.LabelOfLabelIndex | utils/sheets.py:181-189 | every word of capital letters is the label of some index, so labels are exactly those words |
| GoogleSheets.LabelInjective | utils/sheets.py:181-189 | distinct columns get distinct labels, so no two differences of a sheet share a range |
| GoogleSheets.RowDifferencesSpec | utils/sheets.py:209-230 | a row's differences are exactly its cells that disagree with the remote cell (or `""` where the remote has none), with range, local and remote values |
| GoogleSheets.TableDifferencesSpec | utils/sheets.py:202-232 | a sheet's differences are exactly its cells, over every row, that disagree with the remote copy |
| GoogleSheets.RowNoDifferences | utils/sheets.py:209-230 | a row compared with itself has no differences |
| GoogleSheets.TableNoDifferences | utils/sheets.py:202-232 | a sheet compared with itself has no differences |
| GoogleSheets.NoDifferencesWhenEqual | utils/sheets.py:202-232 | equal local and remote copies have no differences, so a push right after a pull sends nothing |
| GoogleSheets.GoogleSheet.constructor | utils/sheets.py:147-152 | a new sheet is not loaded and holds no local or remote data |
| GoogleSheets.GoogleSheet.Get | utils/sheets.py:157-161 | `AttributeError` before loading, `KeyError` for an unknown name, and otherwise the local copy of that sheet |
| GoogleSheets.GoogleSheet.Store | utils/sheets.py:157-161 | an edit through the list `sheet[name]` returned replaces that sheet's local copy and nothing else |
| GoogleSheets.GoogleSheet.Len | utils/sheets.py:163-172 | `AttributeError` exactly before loading; otherwise the number of local cells over every sheet and row |
| GoogleSheets.GoogleSheet.GetDifferences | utils/sheets.py:202-232 | the loop over sheets, rows and cells computes exactly the differences the lemmas above characterise, sheet by sheet in key order |
| GoogleSheets.SheetDifferences | utils/sheets.py:209-230 | the loop over one sheet's rows computes its differences |
| GoogleSheets.CellDifferences | utils/sheets.py:210-230 | the loop over one row's cells computes its differences |
| GoogleSheets.GoogleSheet.Pull | utils/sheets.py:234-276 | `PermissionError` with bad credentials and no change; otherwise the fetched sheets are merged into the remote copy in order; a complete fetch loads the sheet with local equal to remote; a 500, 502, 503 or timeout is only logged, any other failure raised, and either way the local copy stays |
| GoogleSheets.GoogleSheet.Push | utils/sheets.py:283-321 | `PermissionError` with bad credentials, `AttributeError` before loading; nothing sent when there are no differences; otherwise every difference is sent with its local value, and the remote copy becomes the local one only when the update succeeds |
| GoogleSheets.Merged | utils/sheets.py:265 | after `|=` with every fetched sheet, the keys are the old ones plus the fetched titles |
| GoogleSheets.MergedOrderOf | utils/sheets.py:265 | the key order kept beside the remote copy lists its keys exactly once each after every merge |
| GoogleSheets.MergedHoldsLastFetch | utils/sheets.py:265 | a sheet's merged value is its last fetch |
| SheetTables.WriteKeys | storage/restocks.py:115-132 | the keys a run of writes names, one per write, in order |
| SheetTables.SetCell | storage/restocks.py:144 | `row[headers.index(key)] = v` succeeds exactly when the header is there and the row reaches its column; a missing header raises `ValueError`, a short row `IndexError`; on success only that column changes, to `v` |
| SheetTables.SetCells | storage/restocks.py:144-155 | a run of writes succeeds exactly when every key is writable, and keeps the row's length |
| SheetTables.SetCellsSpec | storage/restocks.py:144-155 | after writes to distinct keys, each written column holds its value and every column no write names keeps its cell |
| SheetTables.SetCellsAppend | storage/restocks.py:144-155 | writing two runs in turn is writing their concatenation, the first error winning |
| SheetTables.UnwrittenKept | storage/restocks.py:144-155 | a writable key no write names keeps its cell |
| SheetTables.KeptJudged | storage/restocks.py:144-155 | a key no write names is judged after the writes as it was before |
| SheetTables.WrittenCellAt | storage/restocks.py:144-155 | each written key stays writable and holds its written value |
| SheetTables.WrittenJudged | storage/restocks.py:144-155 | a written key is judged on its written value |
| SheetTables.WrittenAt | storage/restocks.py:144-155 | a written value that loads under a check is what validation loads for that key |
| SheetTables.Blank | storage/restocks.py:113 | `[""] * len(headers)` is a row of blank cells of that length |
| SheetTables.NewRowWritable | storage/restocks.py:113-132 | every write into a new row succeeds when every key it writes is a header |
| SheetTables.StoredCell | utils/sheets.py:254-263 | a pull reads back every cell as pushed except `None`, which comes back blank |
| SheetTables.ReadBack | utils/sheets.py:254-263 | a row read back holds the stored form of each cell |
| SheetTables.IdsReadBack | storage/restocks.py:46-51 | the id list a push writes (blank for no ids) is read back by a load as the same list |
| SheetTables.EndReadBack | storage/restocks.py:63 | an end time that is not the epoch survives the `if data["End"]` test of a load |
| SheetTables.TextCellLoads | storage/restocks.py:115-132 | a non-blank text written to a cell loads as itself under a text check its pattern accepts |
| SheetTables.BlankCellLoads | storage/restocks.py:128-130 | a cell written blank loads as `None` under an optional check |
| SheetTables.IntCellLoads | storage/restocks.py:117-119 | a written number loads as itself under an `int` check |
| SheetTables.FloatCellLoads | storage/carriers.py:170-234 | a written float loads as itself under a `float` check |
| SheetTables.BoolCellLoads | storage/capi.py:83-130 | a written boolean loads as itself under a `bool` check |
| SheetTables.OptIntCellLoads | storage/restocks.py:121 | a written optional number loads as itself, `None` included, under an `int | None` check |
| SheetTables.DigitsCellLoads | storage/restocks.py:125 | a message id written as its decimal text loads back as the number under an `int` check |
| SheetTables.IdsCellLoads | storage/restocks.py:122-124 | an id list written by a push passes the `Haulers` check, the empty list loading as `None` |
| SheetTables.NewRowLoads | storage/restocks.py:113-134 | a new row read back validates with nothing invalid, each key loading its written value, when each written value passes its check |
| SheetTables.AllReadBackJudged | storage/restocks.py:113-134 | each check of a new row read back is judged on the stored form of its written value |
| SheetTables.ReadBackJudged | storage/restocks.py:113-134 | a key a new row writes is judged on the stored form of its value |
| SheetTables.ReadBackCell | storage/restocks.py:113-134 | a key a new row writes reads back as the stored form of its value |
| SheetTables.NewRowCell | storage/restocks.py:113-134 | the new row has one cell per header and each written column holds its value |
| SheetTables.Contains | storage/restocks.py:110-112 | `v in (row[headers.index(key)] for row in rows)`: false for no rows; `ValueError` for a missing header; true only with a row holding `v`; false only when every row is long enough and none holds it; `IndexError` only for a short row, and never when all rows are long enough |
| SheetTables.UpdateRow | storage/restocks.py:137-155 | a targeted row (its id matches and its task is neither complete nor aborted) gets the writes; any other row is left as it was; a row too short for the id column raises |
| SheetTables.UpdatedRows | storage/restocks.py:137-155 | the update loop succeeds exactly when every row does, each row getting its own update |
| SheetTables.UpdateRows | storage/restocks.py:137-155 | the loop over the rows computes `UpdatedRows` |
| SheetTables.UpdateErrorStays | storage/restocks.py:137-155 | an error on some row ends the update loop with that error |
| SheetTables.ErrorFirst | storage/restocks.py:137-155 | the first row that raises decides the error of the whole loop |
| SheetTables.Updated | storage/restocks.py:137-155 | the header row is kept and every later row gets its own update, the loop succeeding exactly when each does |
| SheetTables.PushItem | storage/restocks.py:109-155 | one record's push keeps the header row |
| SheetTables.PushItemAppends | storage/restocks.py:110-135 | a push appends one row exactly when the record may append and its id is absent, and otherwise keeps the number of rows |
| SheetTables.PushItemKeepsOthers | storage/restocks.py:137-155 | after one record's push, targeted rows hold their writes and every other row, any closed task included, is unchanged |
| SheetTables.PushKeepsColumn | storage/restocks.py:137-155 | a column the update does not write keeps its cell in every row |
| SheetTables.PushedRowUpdated | storage/restocks.py:137-155 | a successful push ran the update of every existing row without error |
| SheetTables.PushItemNewRow | storage/restocks.py:113-134 | an appended row is the new row's writes over a blank row, updated too when the record's push also runs the update loop |
| SheetTables.Pushed | storage/restocks.py:109-155 | pushing every record in turn keeps the header row |
| SheetTables.PushTable | storage/restocks.py:101-157 | an empty sheet raises `IndexError`; a header row missing a checked key raises `ValueError`; otherwise every record is pushed in turn |
| SheetTables.PushOne | storage/restocks.py:109-155 | the loop body computes `PushItem` |
| SheetTables.UpdateAll | storage/restocks.py:137-155 | the loop over the rows after the header computes `Updated` |
| SheetTables.PushAll | storage/restocks.py:101-157 | the loop over the records computes `PushTable` |
| SheetTables.PushErrorStays | storage/restocks.py:109-155 | an error while pushing one record ends the whole push with that error |
| SheetTables.LoadedRows | storage/restocks.py:89-98 | the load fails exactly when some row raises an error other than `ValueError`, with that error; otherwise each record comes from a row, every row that decodes gives its record, and rejected rows are skipped |
| SheetTables.LoadedTable | storage/restocks.py:86-98 | an empty sheet raises `IndexError`; otherwise the rows after the header are loaded |
| SheetTables.LoadAll | storage/restocks.py:86-98 | the loop over the rows computes `LoadedTable` |
| SheetTables.LoadErrorStays | storage/restocks.py:89-98 | an error that ends the load on some row ends the whole load with that error |
| SheetTables.IntOrNull | storage/restocks.py:128-130 | a number becomes its cell and no number becomes `None` |
| SheetTables.IdStrings | storage/restocks.py:122-124 | `str` of each id, one per id, in order |
| SheetTables.IdsRoundTrip | storage/restocks.py:46-51 | reading back the text a push writes for a non-empty list of non-negative ids gives the list |
| SheetTables.IdsWithoutSpaces | storage/restocks.py:50 | dropping the spaces of the written text leaves the ids joined by bare commas |
| SheetTables.IdStringsRead | storage/restocks.py:50 | `int` of each id's text is that id |
| SheetTables.EmptyIdsBlank | storage/restocks.py:122-124 | the empty list is written as a blank cell |
| SheetTables.IdsTextNonEmpty | storage/restocks.py:122-124 | a non-empty list is never written as a blank cell |
| SheetTables.IdsTextMatches | storage/restocks.py:122-124 | the text written for non-negative ids passes the `Haulers` pattern |
| SheetTables.IdListOfJoin | storage/restocks.py:26 | digit words joined by ", " form a line of the id-list pattern |
| SheetTables.IdListLineNoBreak | storage/restocks.py:26 | a line of the id-list pattern holds no line break |
| Storage.LoadFrom | storage/bridges.py:89-101 | a sheet that cannot be read passes its error on; otherwise its rows after the header are loaded |
| Storage.EditFrom | storage/bridges.py:106-127 | a sheet that cannot be read passes its error on; otherwise the records are pushed into it |
| Storage.LoadSheet | storage/bridges.py:84-101 | reading the named sheet of the spreadsheet and loading its rows computes `LoadFrom` |
| Storage.EditSheet | storage/bridges.py:104-127 | a failed push leaves the local spreadsheet as it was; a successful one replaces the named sheet with the edited table and nothing else |
| BridgeSheet.MarketOf | storage/bridges.py:49-69 | a market with exactly one of tonnage and price blank is ambiguous; both blank is the empty market; otherwise a single tritium good with that price and stock |
| BridgeSheet.DecodeBridge | storage/bridges.py:31-81 | a row fails the load exactly when validation raises; a decoded row validated with nothing invalid and has a located system |
| BridgeSheet.LoadedMarket | storage/bridges.py:36-69 | a row that validates is rejected exactly when its market is ambiguous, and otherwise has the empty market exactly when its tonnage is blank, a tritium good of its price and tonnage otherwise |
| BridgeSheet.SheetTritiumIsTritium | storage/bridges.py:63-69 | the good a bridge row stores is the tritium of its market, at bracket 0 and with no demand |
| BridgeSheet.WrittenKeys | storage/bridges.py:119-127 | a push writes "Tonnage", "Sell Price" and "Update", each once |
| BridgeSheet.PushAddsNoRow | storage/bridges.py:112-127 | pushing a bridge never appends a row |
| BridgeSheet.PushKeepsUnwritten | storage/bridges.py:112-127 | every cell outside the three written columns keeps its value |
| BridgeSheet.PushThenLoad | storage/bridges.py:31-127 | after a push, a row of the pushed bridge's name loads as that row's bridge with the pushed market and update time, and every other row loads as before |
| BridgeSheet.NameTargets | storage/bridges.py:113-115 | a push writes to a loaded row exactly when the row holds the bridge's name |
| BridgeSheet.RowReloads | storage/bridges.py:31-127 | writing a bridge into a row that loads gives a row that loads as the old bridge with the new market and update time |
| BridgeSheet.ReloadedAt | storage/bridges.py:31-127 | after the writes each checked column loads the value the re-pushed bridge expects |
| BridgeSheet.KeptAt | storage/bridges.py:31-127 | a checked column the push does not write loads as before |
| BridgeSheet.KeptCell | storage/bridges.py:31-127 | the expected reload of an unwritten column is its old value |
| BridgeSheet.WrittenReloads | storage/bridges.py:119-127 | each written column loads its written value |
| BridgeSheet.WrittenCellLoads | storage/bridges.py:119-127 | the tonnage, price and update written pass their checks with the expected values |
| BridgeSheet.ReloadedKeys | storage/bridges.py:17-28 | validation of the bridge checks binds each sheet key to its own value |
| BridgeSheet.ReloadedBridge | storage/bridges.py:62-81 | validated values with the new tonnage, price and update build the re-pushed bridge |
| BridgeSheet.ChecksDistinct | storage/bridges.py:17-28 | the checked keys are distinct |
| BridgeSheet.LoadBridges | storage/bridges.py:84-101 | a failed load passes the error on; otherwise one fresh bridge object per loaded record, in order, holding that record |
| BridgeSheet.NewBridges | storage/bridges.py:74-81 | one fresh bridge object per record, in order, holding that record |
| BridgeSheet.PushBridges | storage/bridges.py:104-129 | the push of every bridge in turn into the "Bridge" sheet; on an error the local spreadsheet is unchanged |
| CapiSheet.TokenOf | storage/capi.py:39-50 | a token and an expiry that are both set give the token; both unset give no token; exactly one of them set is rejected |
| CapiSheet.DecodeAccount | storage/capi.py:28-60 | a row fails the load exactly when validation raises; a decoded row validated with nothing invalid |
| CapiSheet.ServiceTypeParses | storage/capi.py:18 | with the pattern read as intended, every `Type` a valid row holds names a login service |
| CapiSheet.TypeAsWrittenAcceptsNonService | storage/capi.py:18 | as written, the pattern accepts "Frontierfoo", which names no login service |
| CapiSheet.UnpairedTokenRejected | storage/capi.py:46-50 | a row with an access token but no expiry, or the other way round, is rejected |
| CapiSheet.UpdateKeys | storage/capi.py:114-128 | an update writes the type, commander, carrier, refresh token, access token and expiry, each once, and never the account or Discord id |
| CapiSheet.PushKeepsIdentity | storage/capi.py:114-128 | a push never rewrites the account id or the Discord id of an existing row |
| CapiSheet.NewRowAccepted | storage/capi.py:95-111 | every cell of a new row for a storable account passes its check with the value the account holds |
| CapiSheet.AcceptedAt | storage/capi.py:95-111 | the same, one check at a time |
| CapiSheet.LoadsInOrder | storage/capi.py:16-25 | validated values in check order bind each key to the account's own value |
| CapiSheet.LoadedAccount | storage/capi.py:39-60 | validated values of an account build that account |
| CapiSheet.AccountRoundTrip | storage/capi.py:28-111 | a new row written for a storable account loads back as that account |
| CapiSheet.ChecksDistinct | storage/capi.py:16-25 | the checked keys are distinct |
| CapiSheet.WritesDistinct | storage/capi.py:95-109 | a new row writes each key once |
| CapiSheet.WritesAreChecks | storage/capi.py:95-109 | a new row writes exactly the checked keys, each with the value the account holds |
| CapiSheet.NewRowValidates | storage/capi.py:95-111 | a new row read back validates with nothing invalid, each key holding the account's value |
| CapiSheet.LoadData | storage/capi.py:63-80 | a failed load passes the error on; otherwise one fresh record object per loaded row, in order, holding that row's account |
| CapiSheet.NewAccounts | storage/capi.py:52-60 | one fresh record object per account, in order, holding that account |
| CapiSheet.PushData | storage/capi.py:83-130 | the push of every account in turn into the "CAPI" sheet; on an error the local spreadsheet is unchanged |
| CarrierSheet.MarketLoad | storage/carriers.py:38-85 | an "Unlisted" market loads (as no goods) exactly when tonnage and price are both blank; any other kind loads exactly when both are set, as one good |
| CarrierSheet.ListedMarketKeepsTonnage | storage/carriers.py:72-83 | with the pattern read as intended, a "Selling" market is tritium stock and a "Buying" market tritium demand, at the row's price and tonnage and the bracket of that tonnage |
| CarrierSheet.MarketAsWrittenLosesTonnage | storage/carriers.py:22 | as written, the pattern accepts "Sellingfoo", which loads as a tritium good with neither stock nor demand, so 8000 t on the row are lost |
| CarrierSheet.DecodeCarrier | storage/carriers.py:88-146 | a row fails the load exactly when validation raises; a decoded carrier validated with nothing invalid, is deployed at the row's coordinates, and is located there too only when its current system is its deploy system |
| CarrierSheet.IgnoredOnlyInactive | storage/carriers.py:96-122 | a row is skipped as ignored exactly when it is invalid or has a bad market and its `Active` cell is false |
| CarrierSheet.UpdateKeys | storage/carriers.py:202-229 | an update writes tonnage, price, market, then `Synced` only with a CAPI status, then update time, current system and colour, each once |
| CarrierSheet.UpdatesStayInColumns | storage/carriers.py:202-229 | no update writes outside the updated columns |
| CarrierSheet.PushKeepsFixed | storage/carriers.py:202-229 | a push keeps every cell outside the updated columns |
| CarrierSheet.NoLocationRaises | storage/carriers.py:185 | a new carrier with no deploy location fails the `assert` |
| CarrierSheet.AppendedAccepted | storage/carriers.py:180-229 | every cell of the appended and updated row for a storable carrier passes its check with the value the carrier reloads with |
| CarrierSheet.MarketCellsAccepted | storage/carriers.py:208-222 | the tonnage, price and market written for any tritium pass their checks |
| CarrierSheet.AcceptedLow | storage/carriers.py:180-229 | the same, for the first seven checks |
| CarrierSheet.AcceptedHigh | storage/carriers.py:180-229 | the same, for the remaining checks |
| CarrierSheet.AcceptedMiddle | storage/carriers.py:180-229 | the same, for coordinates, reserve and allocation |
| CarrierSheet.AcceptedPoint | storage/carriers.py:187-189 | the same, for the coordinates |
| CarrierSheet.AcceptedLast | storage/carriers.py:180-229 | the same, for deploy system, contact, URL, market id and active flag |
| CarrierSheet.AppendedDistinct | storage/carriers.py:180-229 | the appended row writes each key once |
| CarrierSheet.WritesAreChecks | storage/carriers.py:180-229 | the appended row writes every checked key with the value the carrier holds |
| CarrierSheet.LoadsInOrder | storage/carriers.py:17-35 | validated values in check order bind each key to the carrier's own value |
| CarrierSheet.LoadsFirstInOrder | storage/carriers.py:17-35 | the same, for the first seven keys |
| CarrierSheet.LoadsRestInOrder | storage/carriers.py:17-35 | the same, for the remaining keys |
| CarrierSheet.MarketReloads | storage/carriers.py:38-85 | the tonnage, price and market written for a tritium load back as the market the sheet keeps of it |
| CarrierSheet.LoadedRecord | storage/carriers.py:112-146 | validated values of a carrier build the carrier as the sheet keeps it |
| CarrierSheet.AppendedRoundTrip | storage/carriers.py:88-229 | the row pushed for a new storable carrier loads back as the carrier the sheet keeps |
| CarrierSheet.AppendedValidates | storage/carriers.py:88-229 | the row pushed for a new carrier validates with nothing invalid |
| CarrierSheet.ChecksDistinct | storage/carriers.py:17-35 | the checked keys are distinct |
| CarrierSheet.AppendedRow | storage/carriers.py:180-229 | a push of an absent carrier appends exactly one row, its new row with the update written, every written key a header |
| CarrierSheet.IdWritten | storage/carriers.py:182 | the new row holds the callsign in its `ID` column |
| CarrierSheet.NewKeysDistinct | storage/carriers.py:181-197 | the new row writes each key once, the callsign first |
| CarrierSheet.PushedCarrierReloads | storage/carriers.py:88-229 | after a push of an absent storable carrier, the appended row loads back as the carrier the sheet keeps |
| CarrierSheet.LoadCarriers | storage/carriers.py:149-167 | a failed load passes the error on; otherwise one fresh carrier per loaded row, in order, holding that row's record and no CAPI status |
| CarrierSheet.NewCarriers | storage/carriers.py:133-146 | one fresh carrier per record, in order, holding that record and no CAPI status |
| CarrierSheet.PushCarriers | storage/carriers.py:170-234 | the push of every carrier in turn into the "Carrier" sheet; on an error the local spreadsheet is unchanged |
| RescueSheet.DecodeRescue | storage/rescues.py:30-76 | a row fails the load exactly when validation raises; a decoded row validated with nothing invalid and is placed at the origin |
| RescueSheet.NewRowAccepted | storage/rescues.py:111-131 | every cell of a new row for a storable rescue passes its check with the value the rescue holds |
| RescueSheet.AcceptedAt | storage/rescues.py:111-131 | the same, one check at a time |
| RescueSheet.LoadsInOrder | storage/rescues.py:18-27 | validated values in check order bind each key to the rescue's own value |
| RescueSheet.LoadedRecord | storage/rescues.py:41-76 | validated values of a rescue build that rescue, placed at the origin |
| RescueSheet.ParsedRecord | storage/rescues.py:41-76 | a row whose rescuer list and stage parse builds the rescue of its cells, a blank tritium cell making a ship rescue |
| RescueSheet.RescueRoundTrip | storage/rescues.py:30-131 | a new row written for a storable rescue loads back as that rescue, at the origin |
| RescueSheet.WritesInCheckOrder | storage/rescues.py:111-129 | a new row writes exactly the checked keys, once each, in check order |
| RescueSheet.ChecksDistinct | storage/rescues.py:18-27 | the checked keys are distinct |
| RescueSheet.WritesDistinct | storage/rescues.py:111-129 | a new row writes each key once |
| RescueSheet.NewRowValidates | storage/rescues.py:111-131 | a new row read back validates with nothing invalid, each key holding the rescue's value |
| RescueSheet.LoadRescues | storage/rescues.py:79-96 | a failed load passes the error on; otherwise one fresh rescue per loaded row, in order, holding that row's record |
| RescueSheet.NewRescues | storage/rescues.py:60-76 | one fresh rescue per record, in order, holding that record |
| RescueSheet.NewRescue | storage/rescues.py:60-76 | a fresh rescue holding the record |
| RescueSheet.PushRescues | storage/rescues.py:99-150 | the push of every rescue in turn into the "Rescue" sheet; on an error the local spreadsheet is unchanged |
| RestockSheet.DecodeRestock | storage/restocks.py:34-78 | a row fails the load exactly when validation raises; a decoded row validated with nothing invalid and is placed at the origin |
| RestockSheet.NewRowAccepted | storage/restocks.py:113-134 | every cell of a new row for a storable restock passes its check with the value the restock holds |
| RestockSheet.AcceptedAt | storage/restocks.py:113-134 | the same, one check at a time |
| RestockSheet.LoadsInOrder | storage/restocks.py:18-31 | validated values in check order bind each key to the restock's own value |
| RestockSheet.LoadedRecord | storage/restocks.py:45-78 | validated values of a restock build that restock, placed at the origin |
| RestockSheet.ParsedRecord | storage/restocks.py:45-78 | a row whose hauler list and stage parse builds the restock of its cells |
| RestockSheet.RestockRoundTrip | storage/restocks.py:34-134 | a new row written for a storable restock loads back as that restock, at the origin |
| RestockSheet.WritesInCheckOrder | storage/restocks.py:113-132 | a new row writes exactly the checked keys, once each, in check order |
| RestockSheet.ChecksDistinct | storage/restocks.py:18-31 | the checked keys are distinct |
| RestockSheet.WritesDistinct | storage/restocks.py:113-132 | a new row writes each key once |
| RestockSheet.NewRowValidates | storage/restocks.py:113-134 | a new row read back validates with nothing invalid, each key holding the restock's value |
| RestockSheet.LoadRestocks | storage/restocks.py:81-98 | a failed load passes the error on; otherwise one fresh restock per loaded row, in order, holding that row's record |
| RestockSheet.NewRestocks | storage/restocks.py:71-78 | one fresh restock per record, in order, holding that record |
| RestockSheet.NewRestock | storage/restocks.py:71-78 | a fresh restock holding the record |
| RestockSheet.PushRestocks | storage/restocks.py:101-157 | the push of every restock in turn into the "Restock" sheet; on an error the local spreadsheet is unchanged |
| EddnMonitor.Pow4 | external/eddn/monitor.py:91 | a power of the growth factor is at least 1 |
| EddnMonitor.Backoff | external/eddn/monitor.py:90-93 | the wait before a restart lies between the initial 5 s and the 3 h cap |
| EddnMonitor.RestartStep | external/eddn/monitor.py:73-97 | the wait lies between 5 s and 3 h; the count resets to `(0, None)` exactly when the last scheduled restart is more than an hour old, waiting 5 s; otherwise the count goes up by one and the next restart is scheduled after the back-off of the old count |
| EddnMonitor.BackoffGrows | external/eddn/monitor.py:90-93 | each restart waits four times as long as the one before, up to the cap |
| EddnMonitor.BackoffCapped | external/eddn/monitor.py:90-93 | the first six restarts wait 5 s times a power of 4, below the cap; every later one waits the full 3 h |
| EddnMonitor.PowAtLeast | external/eddn/monitor.py:90-93 | from the sixth power on, the growth passes the cap |
| EddnMonitor.Monitor.constructor | external/eddn/monitor.py:39 | a new monitor has restarted no times |
| EddnMonitor.Monitor.Restart | external/eddn/monitor.py:73-101 | the restart computes the step's wait and new restart state and keeps the state coherent; the first restart waits 5 s and schedules itself 5 s ahead |
| EddnMonitor.TestSchemaPasses | external/eddn/monitor.py:125 | the substring test lets the commodity test schema through and keeps journal messages out |
| EddnMonitor.GoodOf | external/eddn/monitor.py:134-150 | a commodity entry becomes a good with buy price, stock and bracket on the stock side, sell price, demand and bracket on the demand side, its name in lower case and its mean price |
| EddnMonitor.MarketOf | external/eddn/monitor.py:134-150 | one good per commodity entry, in order |
| EddnMonitor.Issues | external/eddn/monitor.py:162-183 | a good has no issues exactly when it is plausible, has at most three, and a good neither bought nor sold has only "Trading but not buying or selling." |
| EddnMonitor.CarrierChecksStricter | external/eddn/monitor.py:171-180 | every good plausible at a carrier is plausible at a station |
| EddnMonitor.GoodLinesEmpty | external/eddn/monitor.py:156-186 | a good adds no lines to the warning exactly when it is pesticides or has no issue |
| EddnMonitor.WarningEmpty | external/eddn/monitor.py:153-188 | the warning is its header alone exactly when every good is accepted |
| EddnMonitor.WarningStartsWithHeader | external/eddn/monitor.py:153-155 | the warning always holds its header line |
| EddnMonitor.GoodIssues | external/eddn/monitor.py:162-183 | the issue checks of the loop body compute `Issues` |
| EddnMonitor.GoodReport | external/eddn/monitor.py:158-186 | one pass of the loop adds the good's lines |
| EddnMonitor.Validate | external/eddn/monitor.py:153-186 | the loop over the market builds the warning of every good in order |
| EddnMonitor.CheckSnapshot | external/eddn/monitor.py:131-200 | the event fires exactly when every good of the message is accepted, with station, system, market, market id and timestamp of the message; carriers are told apart by their callsign-shaped station name |
| EddnMonitor.PesticidesExempt | external/eddn/monitor.py:158-160 | pesticides are accepted whatever their prices and quantities |
| CapiQuery.Request | external/capi/query.py:41-65 | with no response the call fails; the Epic marker in the body is tested first; then the API is down exactly for 418, 500, 502, 503 and 504, the token is refused exactly for 401, any other status of 400 or more is an HTTP error, and below 400 the call succeeds, with the empty body when the answer is not JSON |
| CapiQuery.CapiDownBeforeHttpError | external/capi/query.py:54-60 | a maintenance status is reported as the API being down, never as a plain HTTP error |
| CapiQuery.Profile | external/capi/query.py:135-143 | a failed request passes its error on, an empty body raises `KeyError`, and otherwise the commander's name is returned |
| CapiQuery.HexValue | external/capi/query.py:116-118 | a base-16 digit, either case, stands for a value below 16 |
| CapiQuery.HexDigit | external/capi/query.py:116-118 | the digit of a value reads back as that value and is not lower case |
| CapiQuery.Base16Encode | external/capi/query.py:116-118 | each byte becomes two digits |
| CapiQuery.Base16Decode | external/capi/query.py:116-118 | text decodes exactly when it has even length and only base-16 digits, each byte from its two digits |
| CapiQuery.Base16RoundTrip | external/capi/query.py:116-118 | decoding the encoding of any bytes gives them back |
| CapiQuery.Base16CaseInsensitive | external/capi/query.py:116-118 | with `casefold=True`, lower-case text decodes as its upper-case form does |
| CapiQuery.FleetMarket | external/capi/query.py:91-114 | one good per sell order, then one per buy order, in order: names in lower case, a sell order on the stock side and a buy order on the demand side, each with the bracket of its quantity |
| CapiQuery.Fleetcarrier | external/capi/query.py:78-132 | a failed request passes its error on; an empty body means the player owns no carrier; otherwise a vanity name that is not base-16 UTF-8 fails, and a good one gives the callsign, the decoded name, the market id, the market and the current system |
| CapiQuery.FleetNamesLowerCase | external/capi/query.py:91-114 | every good of a fleet carrier's market has a name without capitals |
| Patterns.FirstLine | utils/sheets.py:83 | the text up to the first line break, which with `re.MULTILINE` is where `$` first matches |
| Patterns.DigitRun | storage/restocks.py:26 | the longest run of digits at the start of a text |
| Patterns.OneOfAcceptedAsWritten | storage/carriers.py:22 | the pattern as written accepts every one of its words on its own |
| Patterns.Source | utils/sheets.py:108-109 | the text of a pattern holds no line break |
| Patterns.JoinNoBreak | utils/sheets.py:113 | joining texts without line breaks by a separator without one gives a text without one |
| Patterns.CallsignFirstLine | storage/carriers.py:18 | a callsign match is a line of exactly seven characters |
| Patterns.FirstLineAt | utils/sheets.py:83 | a text whose first line ends at `n` has its first `n` characters as first line |
| Text.DigitChar | storage/restocks.py:125 | the digit of a value below ten stands for that value |
| Text.NatToString | storage/restocks.py:125 | `str` of a natural number is digit text |
| Text.IntToString | storage/restocks.py:125 | `str` of an integer is never empty, with a minus sign before the digits of a negative one |
| Text.NatToStringRoundTrip | utils/sheets.py:28-30 | reading the decimal text of a natural number gives the number |
| Text.NatToStringInjective | storage/restocks.py:110-112 | distinct numbers have distinct decimal texts |
| Text.ParseNat | utils/sheets.py:29 | text reads as a natural number exactly when `isdigit` holds |
| Text.LowerChar | common/good.py:42 | lower-casing makes a capital lower case and leaves any other character |
| Text.UpperChar | utils/table.py:56 | upper-casing makes a lower-case letter a capital and leaves any other character |
| Text.Lower | common/good.py:42 | `str.lower` keeps the length and lowers each character |
| Text.LowerIdempotent | common/good.py:42 | lowering twice is lowering once |
| Text.TitleAfterSpec | utils/table.py:56 | title case from any position: a letter after a letter is lowered, any other character raised |
| Text.TitleSpec | utils/table.py:56 | `str.title` keeps the length, raises the first letter of every word and lowers the rest |
| Text.Split | storage/restocks.py:50 | `str.split` gives at least one part and no part holds the separator |
| Text.Remove | storage/restocks.py:50 | `replace(c, "")` leaves no `c` |
| Text.RemoveAbsent | storage/restocks.py:50 | removing a character a text does not hold changes nothing |
| Text.RemoveAppend | storage/restocks.py:50 | removing a character from two joined texts removes it from each |
| Text.SplitAppend | storage/restocks.py:50 | splitting at the first separator gives the text before it, then the split of the rest |
| Text.SplitNoSep | storage/restocks.py:50 | text without the separator splits into itself |
| Text.SplitJoin | storage/restocks.py:50 | splitting by a separator the parts do not hold undoes joining them by it |
| Text.GroupedUngroups | utils/table.py:51 | dropping the commas of digits grouped by thousands gives the digits back |
| Text.ThousandsIsDecimal | utils/table.py:51 | `f"{n:,}"` is the decimal text of `n` with commas added |
| Text.StrLeTotal | bot/misc/statistics.py:42-51 | the order on texts is total |
| Text.StrLeTrans | bot/misc/statistics.py:42-51 | the order on texts is transitive |
| Text.TrimStart | utils/sheets.py:29 | leading white space removed, a suffix of the text |
| Text.TrimEnd | utils/sheets.py:29 | trailing white space removed, a prefix of the text |
| Text.RemoveKeepsDigits | storage/restocks.py:50 | digits with underscores removed are digits |
| Text.PyIntOfDigits | storage/restocks.py:50 | `int` of digit text is its value |
| Text.PyIntOfString | storage/restocks.py:50 | `int` of `str` of a natural number is that number |
| Text.RemoveJoin | storage/restocks.py:50 | removing a character from joined parts is joining the parts, and the separator, without it |
| Tables.BandOf | utils/table.py:7-28 | the first band whose condition holds; a shown count is never below two and stays inside its band (10-59 seconds, 2-59 minutes, 2-23 hours, 2-6 days, 2-4 weeks, 2-12 months, 2 or more years) |
| Tables.BandsOrdered | utils/table.py:7-28 | a longer duration never reads as a shorter one: its band is later, or the same with a count no smaller |
| Tables.FormatDeltaExamples | utils/table.py:7-28 | illustration, not a property: 5 s is "just now", 45 s "45 seconds ago", 90 s "a minute ago", 25 h "Yesterday", 3 days "3 days ago", 800 days "2 years ago" |
| Tables.TextKeepsLength | utils/table.py:56 | title case keeps the length of a text |
| Tables.FormattedRow | utils/table.py:49-56 | one formatted cell per column |
| Tables.Formatted | utils/table.py:49-56 | one formatted row per row of the matrix, all as wide as the first |
| Tables.TextRow | utils/table.py:72-76 | one shown cell per column |
| Tables.Texts | utils/table.py:71-76 | one row of shown cells per row, all as wide as the first |
| Tables.FormattedAt | utils/table.py:49-56 | formatted cell `(y, x)` is `_format` of the matrix's cell |
| Tables.TextAt | utils/table.py:73-76 | shown cell `(y, x)` is `str` of the value in an ignored column and `_format` of it otherwise |
| Tables.WidestBounds | utils/table.py:38-42 | a column's width bounds every formatted cell in it and is the width of one of them |
| Tables.Widths | utils/table.py:31-46 | one width per column |
| Tables.ColumnWidths | utils/table.py:31-46 | the loops compute each column's widest formatted cell plus the padding |
| Tables.ColumnWidth | utils/table.py:38-42 | the inner loop computes the widest formatted cell of a column |
| Tables.LJustSpec | utils/table.py:78 | `ljust` keeps the text and pads it with spaces up to the width, never cutting it |
| Tables.SpacesSpec | utils/table.py:78 | a run of `n` spaces |
| Tables.Lines | utils/table.py:71-80 | one line per row |
| Tables.LineAt | utils/table.py:72-78 | line `y` is the cells of row `y`, each padded to its column's width |
| Tables.PrettyTable | utils/table.py:59-82 | `pretty` is every row's padded cells on a line of its own |
| Tables.PrettyLines | utils/table.py:71-80 | the outer loop builds the lines of every row in order |
| Tables.PrettyLine | utils/table.py:72-78 | the inner loop builds one row's line |
| Tables.RowFits | utils/table.py:72-78 | a row whose cells fit their widths has a line exactly as long as the widths add up to |
| Tables.CellsFit | utils/table.py:31-78 | with non-negative padding, every shown cell fits its column's width when ignored columns hold text |
| Tables.RowsAligned | utils/table.py:59-82 | every line of the table then has the same length, so the columns line up |
| Tables.Kept | utils/table.py:96 | the length left after stripping trailing tabs is no more than the text's |
| Tables.KeptSpec | utils/table.py:96 | only tabs are stripped and the last character kept is not one |
| Tables.RStripSpec | utils/table.py:96 | `rstrip("\t")` leaves a prefix of the text that does not end in a tab, having dropped only tabs |
| Tables.TabbedTable | utils/table.py:85-98 | `tabbed` is every row's formatted cells joined by tabs, trailing tabs stripped, on a line of its own |
| Tables.TabbedStep | utils/table.py:92-96 | one pass of the outer loop adds the row's stripped line, and no line ends in a tab |
| Tables.TabLine | utils/table.py:93-94 | the inner loop builds the row's cells each followed by a tab |
| Tables.KeptAfter | utils/table.py:96 | stripping trailing tabs never reaches past the previous line's break |
| Tables.StripAfter | utils/table.py:96 | stripping the table after a new row only strips that row |
| Tables.TabCellsJoin | utils/table.py:93-94 | a row's cells each followed by a tab are the cells joined by tabs, then a tab |
| Tables.JoinSnoc | utils/table.py:93-94 | joining one more part adds a tab and the part |
| Tables.JoinEndsWithLast | utils/table.py:93-96 | a join whose last part is non-empty and tab-free does not end in a tab |
| Tables.TabbedRowSplits | utils/table.py:85-98 | a row of tab-free cells whose last is non-empty splits back into its cells |
| Tables.BlankLastCellLost | utils/table.py:96 | a row whose last cell is empty loses that cell: it splits back into one cell fewer |
| Events.SubscribedSpec | utils/events/sync_event.py:12-17 | `+=` keeps the handlers free of repeats, adds exactly the new handler, and a second `+=` of it changes nothing |
| Events.RemovedSpec | utils/events/sync_event.py:19-26 | `-=` keeps the handlers free of repeats, leaves every other handler and no copy of the removed one, and ignores a handler that is not subscribed |
| Events.RemovedKind | utils/events/async_event.py:23-30 | removing a handler keeps every remaining handler of the kind they all had |
| Events.UnsubscribeUndoes | utils/events/sync_event.py:12-26 | `-=` undoes a `+=` of a handler that was not subscribed |
| Events.SyncEvent.constructor | utils/events/sync_event.py:9-10 | a new event has no handlers |
| Events.SyncEvent.Subscribe | utils/events/sync_event.py:12-17 | `+=` appends the handler unless it is already subscribed |
| Events.SyncEvent.Unsubscribe | utils/events/sync_event.py:19-26 | `-=` removes the handler, if it is subscribed |
| Events.SyncEvent.Fire | utils/events/sync_event.py:28-31 | every handler is called once, in the order they subscribed |
| Events.SyncEvent.Clear | utils/events/sync_event.py:33-35 | no handler is left |
| Events.AsyncEvent.constructor | utils/events/async_event.py:10-11 | a new event has no handlers |
| Events.AsyncEvent.Subscribe | utils/events/async_event.py:13-21 | `+=` raises `TypeError` exactly for a handler that is not a coroutine function, leaving the handlers as they were; otherwise it appends the handler unless it is already subscribed, so every handler is a coroutine function |
| Events.AsyncEvent.Unsubscribe | utils/events/async_event.py:23-30 | `-=` removes the handler, if it is subscribed |
| Events.AsyncEvent.Fire | utils/events/async_event.py:32-37 | every handler is started once, in the order they subscribed, and none when there are none |
| Events.AsyncEvent.Clear | utils/events/async_event.py:39-41 | no handler is left |
| Events.HybridEvent.constructor | utils/events/hybrid_event.py:13-15 | a new event has two fresh events without handlers |
| Events.HybridEvent.Subscribe | utils/events/hybrid_event.py:17-25 | a coroutine function goes to the event for coroutines and any other handler to the blocking one, the other event unchanged; the handlers become the old ones plus the new one |
| Events.HybridEvent.Unsubscribe | utils/events/hybrid_event.py:27-35 | the handler is removed from the event of its kind, the other event unchanged; the handlers become the old ones less that one |
| Events.HybridEvent.Fire | utils/events/hybrid_event.py:37-40 | the blocking handlers are called first, then the coroutines are started |
| Events.HybridEvent.Clear | utils/events/hybrid_event.py:42-45 | neither event has a handler left |
| Events.HybridFiresOnce | utils/events/hybrid_event.py:37-40 | each handler is called at most once per firing, every blocking handler before every coroutine |
| Statistics.SuffixRule | bot/misc/statistics.py:27-32 | the suffix is "th" for 4-20 modulo 100; otherwise "st", "nd" or "rd" exactly for last digits 1, 2 and 3, and "th" for the rest, each as an if-and-only-if |
| Statistics.LastDigit | bot/misc/statistics.py:30-31 | the last digit of the number modulo 100 is its last digit |
| Statistics.SuffixPeriodic | bot/misc/statistics.py:27-32 | the suffix repeats every hundred numbers |
| Statistics.OrdinalExamples | bot/misc/statistics.py:27-32 | illustration, not a property: 1st, 2nd, 3rd, 4th, 11th, 22nd and 0th |
| Statistics.SearchRestocks | bot/misc/statistics.py:34-40 | every restock found lists the user as a hauler, every restock that does is found, and no more are found than there are |
| Statistics.SearchRescues | bot/misc/statistics.py:53-57 | every rescue found lists the user as a rescuer, every rescue that does is found, and no more are found than there are |
| Statistics.TallyCounts | bot/misc/statistics.py:46-47 | the inner loop adds one hit per occurrence of an id in one task's list, and every count stays positive |
| Statistics.HitsCount | bot/misc/statistics.py:43-47 | after the loops each id's count is its number of occurrences over all the tasks, and exactly the ids that occur have a count |
| Statistics.Insert | bot/misc/statistics.py:50 | inserting an entry into a board adds exactly that entry |
| Statistics.InsertRanked | bot/misc/statistics.py:50 | inserting an entry with a new id into a ranked board keeps it ranked: more hits first, then lower ids |
| Statistics.Sort | bot/misc/statistics.py:50 | sorting keeps exactly the entries it is given |
| Statistics.SortRanked | bot/misc/statistics.py:50 | sorting entries with distinct ids gives a ranked board |
| Statistics.Leaderboard | bot/misc/statistics.py:42-51 | the board is ranked and holds exactly one entry per counted id, with its count |
| Statistics.ItemsOf | bot/misc/statistics.py:49 | `list(hits.items())` holds exactly one entry per key, with its count |
| Statistics.Haulers | bot/misc/statistics.py:45-46 | the hauler list of each restock, in order |
| Statistics.Rescuers | bot/misc/statistics.py:62-63 | the rescuer list of each rescue, in order |
| Statistics.RestockLeaderboard | bot/misc/statistics.py:42-51 | the restock board is ranked and lists every hauler with the number of restocks naming them |
| Statistics.RescueLeaderboard | bot/misc/statistics.py:59-68 | the rescue board is ranked and lists every rescuer with the number of rescues naming them |
| Statistics.BoardCounts | bot/misc/statistics.py:42-51 | every entry of a board counts an id's occurrences, which is positive, and every id that occurs has an entry |
| Depots.TritiumIndex | common/depots/depot.py:28-31 | the position of the first good named "tritium", no earlier good being so named, or the market's length when there is none |
| Seqs.FirstWhere | services/depots.py:82-95 | the position of the first element that passes, none before it passing, or the length when none passes |
| Seqs.SortBy | services/depots.py:206-213 | `sorted` with a key: the result is in key order and holds the same elements, each as often |
| Seqs.InsertBy | services/depots.py:206-213 | inserting into a sequence in key order keeps it in key order and adds exactly the element |
| Seqs.SameElements | services/depots.py:206-213 | a sorted copy holds every element of the original and nothing else, and has its length |
| Restocks.RestockService.constructor | services/restocks.py:96-101 | a new service has no tasks and no status changes |
| Rescues.RescueService.constructor | services/rescues.py:91-97 | a new service has no tasks |

## Left out

- Discord: views, commands, embeds and DMs. `write_task`, `update_task`, `close_task` and `update_stage` are effects whose message ids are inputs.
- Network clients: EDSM, INARA, Spansh, the CAPI OAuth exchange, the EDDN upload and the aiohttp session. Their answers are parameters that return an outcome; HTML scraping and JSON decoding are not modelled.
- The EDDN listener's ZMQ socket, zlib decompression, JSON decoding, asyncio tasks and the `commodity` event dispatch. A message arrives as a decoded value.
- Google API plumbing: `load_credentials`, `_verify_credentials`, `build(...)`, `HttpError` and timeouts, `add_row` and the async wrappers around the sheet calls. Each remote call is a parameter that returns success or failure, and the credential check is a boolean parameter.
- Concurrency: `asyncio.gather` in `AsyncEvent.fire`, task creation and cancellation in `CapiWorker.start`/`close` and in the monitor (`start`, `close`, `_error`), and `utils/tick.py`. The model is sequential.
- Fuzzy `search` methods (`thefuzz`). Also `__iter__` and `__len__` of the task and depot sets, apart from the use `find` makes of them.
- Floating point: only the text `repr`/`str` gives a float in `validation_message` and in table cells matters, and it is a parameter (`floatText`). Coordinates are reals carried through unchanged. Distances (`utils/points/*`) and the galaxy image are not modelled.
- Dates: `datetime` values are POSIX seconds. Parsing and formatting dates is not modelled, apart from the relative-time bands of `_format_timedelta`.
- Logging texts, the statistics embeds and their top-5 truncation. Only the searches and the full ordered leaderboards are modelled.
- Configuration and bootstrap (`settings/*`, `main.py`).
- Unicode: strings are sequences of characters. `lower`, `title` and `isdigit` are their ASCII forms.
- System equality: a `System` compares its name and its `Point3D` location, and `Point3D` has no `__eq__`. That comparison is a parameter (`sameSystem`) of the carrier colour. Elsewhere the source compares system names, and so does the model.
- Stored locations: the sheets do not store a location for a task's system, so a loaded task's system sits at the origin (0, 0, 0).
- `State.PARTIAL`: `services/capi/worker.py` refers to it, but the enum has no such member. The model takes `CAPI.use_epic` as false, so a carrier is eligible for polling exactly when its state is `SYNCING`.
- `carrier.inara_poll`: `services/depots.py` reads it, but `Carrier` does not declare it. It is a parameter (`polled`) of the INARA pass.
- `TokenFail`: the worker loop does not catch it, so it ends the worker's task. The model's back-off gives no pause for it (`CapiWorkers.TokenFailStops`).
- `services/capi/utils.py` and `external/capi/__init__.py` call names that do not exist as written. Neither file is part of this model.
- Storage round trips: the lemmas that read pushed rows back assume the sheet gives back a cell as it was written. This holds for columns formatted as plain text. `str(id)` written to a key column is compared with the cell text.
- Python sets: iteration order is unspecified, so every `find` is modelled as returning the first match in one fixed order. For restocks and rescues it is proved that some matching task is returned, and `None` only when none matches.
- CarrierSheet.DecodeCarrier: the Market check uses the intended pattern `^(Buying|Selling|Unlisted)$`, so a "Sellingfoo" row is rejected, while the source's `^Buying|Selling|Unlisted$` lets it load. The pattern as written is modelled on its own (`CarrierSheet.MarketAsWrittenLosesTonnage`, see Findings).
- CarrierSheet.LoadCarriers: built on `CarrierSheet.DecodeCarrier`, so it skips a "Sellingfoo" row that the source keeps.
- CapiSheet.DecodeAccount: the Type check uses the intended pattern `^(Frontier|Steam|Epic)$`, so a "Frontierfoo" Type is rejected, while the source loads it as the account's `auth_type`. The pattern as written is modelled on its own (`CapiSheet.TypeAsWrittenAcceptsNonService`, see Findings).
- CapiSheet.LoadData: built on `CapiSheet.DecodeAccount`, so it skips a "Frontierfoo" row that the source keeps.
- CapiWorkers.CapiWorker.RoundAtSpec: the re-check after the sleep compares the oldest carrier by callsign, the intended reading. As written the source compares whole `SimpleCarrier` values, so an uncached external carrier is re-selected on every round and never polled (`CapiWorkers.UncachedExternalNeverSettles`, see Findings).
- CapiWorkers.CapiWorker.RoundAt: the same callsign re-check as `RoundAtSpec`; the as-written comparison is `CapiWorkers.SameTargetAsWritten`.
- CapiWorkers.CapiWorker.Iteration: runs `RoundAt`, so it settles and polls an uncached external carrier that the source would re-select forever.
- Storage.EditSheet: when a push fails part-way, the model keeps the local spreadsheet as it was. The source edits the sheet's rows in place, so the cells written and rows appended before the error stay in the local copy, and the next push uploads them. The header check runs before any write, so this only differs for errors raised later: a written column the check does not cover, or a row shorter than the header row.
- BridgeSheet.PushBridges: on an error the local spreadsheet is unchanged, as in `Storage.EditSheet`; the source keeps the partial edits. Nothing is sent to the remote sheet in either case.
- CapiSheet.PushData: on an error the local spreadsheet is unchanged, as in `Storage.EditSheet`; the source keeps the partial edits.
- CarrierSheet.PushCarriers: on an error the local spreadsheet is unchanged, as in `Storage.EditSheet`; the source keeps the partial edits, for example the Tonnage, Price and Market cells of a row too short for "Synced".
- RescueSheet.PushRescues: on an error the local spreadsheet is unchanged, as in `Storage.EditSheet`; the source keeps the partial edits.
- RestockSheet.PushRestocks: on an error the local spreadsheet is unchanged, as in `Storage.EditSheet`; the source keeps the partial edits.
- CapiServices.CapiService.Pull: the loaded records must have pairwise distinct customer ids. The source accepts duplicates, because a record's equality compares every field, and its token refresh then updates the first record with that id. The model does not cover a sheet with repeated customer ids.
- CapiServices.CapiService.Valid: states the same distinct-id condition, which every CAPI operation of the model relies on.
- DepotServices.DepotService.Verify: the per-carrier promise that each carrier ends as `try_restock` leaves it from what it found before `verify`, and that a failure names a failing carrier, holds when the carriers' callsigns are non-empty and distinct. With an empty callsign the callsign query matches every task, and with a repeated callsign a later carrier reconciles the task an earlier one opened or found, so what a carrier found before `verify` no longer describes its task. The status and new-task facts hold for any callsigns.
- DepotServices.DepotService.VerifyLoop: the same distinct-callsign condition as `Verify` for the per-carrier promise and the failing carrier.
- DepotServices.DepotService.VerifyStep: the same distinct-callsign condition as `Verify` for extending the visited carriers.
- RescueSheet.RescueChecks and RestockSheet.RestockChecks: the State check uses the intended pattern `^(Pending|Underway|Complete|Aborted)$`. The source's `^Pending|Underway|Complete|Aborted$` lets a value such as "Pendingfoo" through validation, and `Stage(value)` then raises the `ValueError` that skips the row. The row is skipped either way, so only the log message differs.
- DepotServices.DepotService.InaraUpdate: the pause of `delay` milliseconds after each written carrier is not modelled.

## Findings

| source | as written | input that shows it | evidently intended | confidence | as-written member | corrected member |
|---|---|---|---|---|---|---|
| services/capi/worker.py:103-136 | an external carrier without a cache entry gets `datetime.now()` as its update time at each lookup, and `_next_target` re-checks with `==` on the whole `SimpleCarrier` | an external callsign not in `_cache`: the second lookup has a later time, so the check fails and the worker re-selects without ever polling it | the re-check asks whether the same carrier is still the oldest, compared by callsign | not executed | CapiWorkers.UncachedExternalNeverSettles | CapiWorkers.ExternalSettles |
| storage/carriers.py:22 | `^Buying\|Selling\|Unlisted$` binds as `^Buying`, `Selling` or `Unlisted$`, so under `re.match` a text that only starts with "Buying" or "Selling" passes | Market "Sellingfoo", Tonnage 8000, Price 50000: the row loads a tritium good with neither stock nor demand | `^(Buying\|Selling\|Unlisted)$`: the cell is exactly one of the three words | not executed | CarrierSheet.MarketAsWrittenLosesTonnage | CarrierSheet.ListedMarketKeepsTonnage |
| storage/capi.py:18 | `^Frontier\|Steam\|Epic$` binds the same way, so a text that only starts with "Frontier" passes | Type "Frontierfoo": it passes the check but names no login service | `^(Frontier\|Steam\|Epic)$` | not executed | CapiSheet.TypeAsWrittenAcceptsNonService | CapiSheet.ServiceTypeParses |
