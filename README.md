# BBHBot follow-up bots, modelled in Dafny

BBHBot listens to gravitational-wave alerts from GraceDB. For a likely
binary black hole merger it asks Fritz for a ZTF observation plan and
triggers ZTF when the plan is good enough. It then keeps asking the
telescope for a cadence of follow-up observations, and later requests
forced photometry (ZFPS) of the AGN in the event's sky area to look for
a flare. This project models the decision logic of those bots. It turns
every call to the outside world into an input and proves what each
decision does.

The model has one module per concern:

- `Wrappers`, `PyText`, `Seqs`, `CivilDates`: Python's `Option`-like
  values and exceptions, the `str` operations the bots use, list
  flattening and chunking, and `datetime` dates with their `strptime`
  readers and `strftime` writers.
- `TriggerLog`: the trigger log `triggered_events.csv` as pandas reads it
  back. It covers the pending and observation cells of "(id,start)"
  texts, `update_trigger_log` in both its versions, `check_triggered_csv`
  and the row the bot appends. `TriggerLogFile` is the log as an object
  whose methods change it.
- `GcnParams`, `PlanUtils`: the alert parameters and the first gate, the
  Fritz plan statistics, the ZTF queue search, the skymap coverage
  fraction, the plan window and the queue name.
- `Admission`: the per-message gate sequence of `trigger.py` and of its
  two predecessors, `TriggerBot/bot/main.py` and `trigger/main.py`. Each
  has a specification function. A method polls and edits the log step by
  step and is proved to agree with that function.
- `Cadence`, `CadencePass`, `RetriggerLoop`, `CadenceBot`: the cadence bot.
  It classifies pending plans by elapsed time, moves them between the
  observation columns, finds the follow-ups due today and re-triggers.
  `CadenceBot` is the older TriggerBot version.
- `PhotoBatch`, `PhotoQueue`, `ZfpsSubmit`, `PhotoLog`, `FlareRun`: the
  photometry side. It covers the coordinates to request and their
  grouping into batches of at most 1500, the backlog of queued requests on
  disk, the submission, and the pipeline record
  `photometry_pipeline.json`. It also covers the daily run of `flares.py`,
  which keeps at most 15000 AGN pending at the service.
- `PhotoStatus`, `FollowupCsv`: the photometry status table in its three
  versions, and the FlareBot CSV pipeline record.
- `AlertFiles`, `TriggerAudit`, `NewEventsDict`, `Crossmatch`: choosing
  the alert file of each new event and the probability cut, the
  retrospective audit of each trigger decision, the events dictionary,
  and the AGN crossmatch bookkeeping.

Where the repository keeps older versions of a function, each version is
modelled separately over the same datatypes, and a lemma states how they
differ.

## Model

| member | source | states |
|---|---|---|
| PyText.SplitJoin | trigger_utils/cadence_utils.py:22 | `str.split` of a join gives the parts back when no part but the last holds the separator's first character and the last holds no separator |
| PyText.ParseIntText | trigger_utils/cadence_utils.py:24 | `int()` reads `str(i)` back as `i` |
| PyText.PyIntText | trigger_utils/trigger_utils.py:547 | Python's whitespace-tolerant `int()` reads `str(i)` back as `i` |
| CivilDates.DayNumberOrder | trigger_utils/trigger_utils.py:530-531 | the day count orders dates as the calendar does and is one-to-one |
| CivilDates.NextDay | trigger_utils/trigger_utils.py:530-531 | the next calendar day is one day later; 31 December 9999 has none (`OverflowError`) |
| CivilDates.AddDays | trigger_utils/trigger_utils.py:530-531 | `date + timedelta(days=n)` is the valid date `n` days later, and fails exactly when that passes year 9999 |
| CivilDates.ParseFormatDate | trigger_utils/trigger_utils.py:530-531 | a date written "%Y-%m-%d" reads back as that date |
| CivilDates.FormatParseDate | trigger_utils/cadence_utils.py:117 | every text the strict date reader accepts is the "%Y-%m-%d" text of the date it reads |
| CivilDates.ParseFormatSeconds | trigger_utils/trigger_utils.py:528 | a timestamp written "%Y-%m-%dT%H:%M:%S" reads back as itself |
| CivilDates.ParseFormatMicro | flares_utils/new_events_utils.py:541 | a timestamp written "%Y-%m-%dT%H:%M:%S.%f" reads back as itself |
| CivilDates.LeadingSpaceRejected | trigger_utils/cadence_utils.py:32 | a text starting with a space is no timestamp in either format |
| CivilDates.CadenceFrom | trigger_utils/trigger_utils.py:526-533 | six dates, the i-th exactly `CadenceOffsets[i]` days after the start day; none when the last would pass year 9999 |
| CivilDates.GenerateCadenceDates | trigger_utils/trigger_utils.py:526-533 | defined exactly when the start parses and its last follow-up stays before year 10000 |
| CivilDates.CadenceIncreasing | trigger_utils/trigger_utils.py:527 | the follow-up dates are in strictly increasing calendar order |
| CivilDates.CadenceIgnoresTime | trigger_utils/trigger_utils.py:529 | only the date part of the start matters |
| CivilDates.CadenceDateIs | trigger_utils/trigger_utils.py:530-531 | the i-th follow-up text reads back as the date `CadenceOffsets[i]` days after the start |
| CivilDates.CadenceFromNewYear | trigger_utils/trigger_utils.py:526-533 | a 1 January start is followed up on 8, 15, 22 and 29 January and 10 and 20 February |
| TriggerLog.FirstRowOf | trigger_utils/trigger_utils.py:604-606 | the row `.values[0]` reads is the first row carrying the event's id; there is none exactly when no row carries it |
| TriggerLog.UpdateTouchesOnlyColumn | trigger_utils/trigger_utils.py:593-633 | a successful update keeps the row count, the ids and every other column; rows of other events are untouched; all rows of the event end with the same cell |
| TriggerLog.AppendCell | trigger_utils/trigger_utils.py:600-611 | appending raises `IndexError` exactly when the event has no row; otherwise every row of the event gets `value` when the first row's cell is NaN and `cell + "," + value` when it is a string |
| TriggerLog.AppendEffect | trigger_utils/trigger_utils.py:600-611 | appending a non-empty text succeeds on an event with a row; each of its rows becomes itself with the appended cell; other rows are unchanged |
| TriggerLog.RemoveErrors | trigger_utils/trigger_utils.py:612-620 | removing raises `IndexError` for an event without a row and `MyException` when the first row's cell is NaN; otherwise it succeeds |
| TriggerLog.RemoveEffect | trigger_utils/trigger_utils.py:612-625 | a removal from a set cell writes the three-step `replace` result of the first row's cell to every row of the event and changes nothing else |
| TriggerLog.RemoveWholeCell | trigger_utils/trigger_utils.py:621-625 | removing the whole text of a cell leaves it NaN on every row of the event |
| TriggerLog.RemoveFromItself | trigger_utils/trigger_utils.py:621-625 | the three chained `replace` calls remove a text from itself completely |
| TriggerLog.TriggerBotUpdateOverwrites | TriggerBot/bot/triggerfunctions.py:325-328 | the TriggerBot update sets the column on every row of the event and leaves the others; it equals the overwrite mode of the current update |
| TriggerLog.CadenceCellRoundTrip | trigger_utils/cadence_utils.py:113-114 | the cadence reader recovers exactly the list that `str(list)` wrote, for items without quotes, brackets or ", " |
| TriggerLog.UnquoteJoin | trigger_utils/cadence_utils.py:114 | deleting every quote from the joined quoted items gives the items joined by ", " |
| TriggerLog.CadenceDatesPlain | trigger_utils/trigger_utils.py:526-533 | the follow-up dates are items the cadence reader carries, so the cadence cell reads back as those dates |
| TriggerLog.PendingSplits | trigger_utils/cadence_utils.py:22 | `split('),(')` cuts a pending cell written from plans into one piece per plan |
| TriggerLog.PieceParses | trigger_utils/cadence_utils.py:23-26 | each piece parses back to its own plan |
| TriggerLog.PendingRoundTrip | cadence.py:135-142 | a pending cell built by appending `"({id},{start})"` texts reads back as exactly those plans, in order, when no start holds a comma or parenthesis |
| TriggerLog.TupleTextMisread | trigger.py:345-356 | the `str(tuple)` text trigger.py writes reads back with the start wrapped in a space and quotes |
| TriggerLog.TupleStartUnreadable | trigger_utils/cadence_utils.py:30-32 | that misread start differs from the written one and no timestamp reader accepts it |
| TriggerLog.CheckTriggered | trigger_utils/trigger_utils.py:536-550 | triggered exactly when some row of the event has a pending cell, and then a plan id is returned; a NaN first cell raises `AttributeError`, an unreadable id `ValueError` |
| TriggerLog.CheckTriggeredFirstPlan | trigger_utils/trigger_utils.py:542-548 | when the first row's pending cell was written from plans, the event is triggered with the first plan's id |
| TriggerLog.CheckTriggeredTriggerBot | TriggerBot/bot/triggerfunctions.py:316-323 | any row of the event raises `KeyError` (that log has no `observation_plan_id` column); no row gives `(False, None)` |
| TriggerLog.NewRow | trigger_utils/trigger_utils.py:553-590 | the appended row reads back with the event id, NaN observation columns, the given pending and serendipitous cells normalised, `str(valid)` and `str(cadence)` |
| TriggerLog.NewRowCadence | trigger_utils/trigger_utils.py:572 | the cadence cell of a new row reads back as the dates written |
| TriggerLog.NewRowTriggerBot | TriggerBot/bot/triggerfunctions.py:330-346 | the TriggerBot row is the current row with no serendipitous cell |
| TriggerLog.TriggerLogFile.Update | trigger_utils/trigger_utils.py:593-633 | the file becomes the updated table, or stays as it was when the update raises that exception |
| TriggerLog.TriggerLogFile.Append | trigger_utils/trigger_utils.py:583-590 | the file gains the new row as it reads back, after the existing rows |
| GcnParams.SkymapName | trigger_utils/trigger_utils.py:142 | the skymap name is the text after the first "files/" of the URL; a URL without it raises `IndexError` |
| GcnParams.GetParams | trigger_utils/trigger_utils.py:50-158 | a non-superevent id raises `MyException`; a missing classification gives P(BBH) 0 and P(terrestrial) 1; a missing DISTMEAN reads "error"; the FAR is `1/(far * 3.15576e7)`, and a zero FAR raises `ZeroDivisionError` |
| GcnParams.GetParamsTriggerBot | TriggerBot/bot/triggerfunctions.py:44-83 | every failure is `MyException`; it agrees with the current reader wherever that one succeeds, and on every superevent id |
| GcnParams.FirstGate | trigger.py:122-133 | the alert is rejected exactly when it fails a threshold; the `skymap_name[-1]` test raises `IndexError` on an empty id or on an empty Preliminary skymap name |
| PlanUtils.FirstWithQueue | trigger_utils/trigger_utils.py:320-325 | the first request whose payload names the queue |
| PlanUtils.GetPlanStats | trigger_utils/trigger_utils.py:300-354 | no response raises `NameError`; a request with one plan and one statistic gives (already submitted, total time, probability, start, request id); otherwise `None` |
| PlanUtils.GetPlanStatsTriggerBot | TriggerBot/bot/triggerfunctions.py:191-237 | fails and selects as the current version does, but reports the statistic's `observation_plan_id` instead of the request id |
| PlanUtils.KeywordIn | trigger_utils/trigger_utils.py:373 | `keyword in name` on text is substring search and raises `TypeError` for an integer keyword |
| PlanUtils.QueryQueue | trigger_utils/trigger_utils.py:357-376 | a failed call raises; no keywords gives the queue names; otherwise only the first keyword against the first name decides |
| PlanUtils.QueryQueueFirstOnly | trigger_utils/trigger_utils.py:371-376 | names and keywords after the first ones never change the answer |
| PlanUtils.SearchNames | TriggerBot/bot/triggerfunctions.py:252-256 | "Already Submitted" when some keyword occurs in some name, `None` when none does, `TypeError` only from an integer keyword |
| PlanUtils.QueryQueueTriggerBotTexts | TriggerBot/bot/triggerfunctions.py:240-256 | with text keywords, the queue counts as submitted exactly when some keyword occurs in some name |
| PlanUtils.QueryQueueTriggerBotIntKeyword | TriggerBot/bot/main.py:138-139 | the keyword list ending in the integer GCN event id raises `TypeError` once the text keywords miss the first name |
| PlanUtils.SkymapFieldIds | trigger_utils/trigger_utils.py:501-505 | exactly the ids of instrument-1 fields with 220 < id < 880 and dec > -30 |
| PlanUtils.ObservedFields | trigger_utils/trigger_utils.py:511-513 | the skymap fields that were observed, with none or all observed told apart by its length |
| PlanUtils.CoverageFraction | trigger_utils/trigger_utils.py:508-518 | a fraction in [0, 1]; 1 exactly when every field was observed, 0 exactly when none was; an empty skymap raises `ZeroDivisionError` |
| PlanUtils.SkymapCoverage | trigger_utils/trigger_utils.py:487-518 | a failed instrument call raises; otherwise the coverage of the eligible fields |
| PlanUtils.PlanWindow | trigger_utils/trigger_utils.py:227-241 | the window spans 16 hours and starts an hour before the next sunset, or an hour before now when the sun is down |
| PlanUtils.QueueName | trigger_utils/trigger_utils.py:259 | `{id}_BBHBot_{start}` with the start's spaces replaced by underscores |
| PlanUtils.QueueNameTriggerBot | TriggerBot/bot/triggerfunctions.py:148 | `{id}_BBHBot_{start}` with the start as given |
| PlanUtils.QueueNameVariants | TriggerBot/bot/triggerfunctions.py:148 | the two queue names agree exactly when the start holds no space |
| Admission.LogState | trigger.py:118-120 | the read fails exactly when `check_triggered_csv` raises; the event counts as triggered with plan `p` exactly when it returns `(True, p)`, that is when a row of the event has a pending plan |
| Admission.LogStateTriggerBot | TriggerBot/bot/main.py:69 | on TriggerBot's own log the read raises for every logged event; an unlogged event is not triggered |
| Admission.Invalidated | trigger.py:136-138 | the event's rows get valid "False"; every other row and the row count are unchanged |
| Admission.InvalidatedIsUpdate | trigger.py:136-138 | that invalidation is exactly what both versions of `update_trigger_log(id, "valid", False)` write |
| Admission.Reject | trigger.py:134-143 | a failing gate is a skip at that gate, retracting exactly when the event has a stored pending trigger |
| Admission.RejectFits | trigger.py:134-143 | a rejection only invalidates the event's rows, sends no trigger and keeps the earlier requests in front |
| Admission.FirstChirp | trigger.py:147-173 | no chirp mass exactly when no attempt found one; otherwise a mass some attempt found |
| Admission.FritzLookup | trigger.py:206-217 | no attempt gives no event; a first answer of `None` raises `TypeError` on the tuple unpack; otherwise the first answer |
| Admission.PollPlan | trigger.py:233-242 | no plan exactly when every attempt read no plan; otherwise the answer of some attempt, error included |
| Admission.QueueShowsEvent | trigger.py:245-254 | in testing mode the queue is not asked and counts as clear; an unanswered queue query raises |
| Admission.QueueShowsEventTriggerBot | TriggerBot/bot/main.py:136-142 | the same for the older bots' keyword search |
| Admission.CadenceFor | trigger.py:343 | succeeds exactly when `generate_cadence_dates` has a value and then returns it; otherwise `ValueError` or `OverflowError` |
| Admission.LoggedRow | trigger.py:343-360 | the appended row is a valid row of the event with the cadence, holding the plan in exactly one of the pending and serendipitous columns, as the coverage chose; the pending cell is the corrected "(id,start)" text |
| Admission.LoggedRowTriggerBot | TriggerBot/bot/main.py:204-209 | the older bots' row is a valid row of the event with the cadence and the plan pending as the corrected "(id,start)" text |
| Admission.Admit | trigger.py:100-373 | an unreadable alert leaves log and requests untouched; the log edit is none, the event's invalidation or one appended valid row; only the initial, mass and plan gates retract, and only a pending event; meeting the alert thresholds skips at the first gate; a commit or trigger request needs every gate before coverage to pass |
| Admission.AdmitGated | trigger.py:122-198 | with no chirp mass found the event is always skipped, retracting only a pending event whose MLP mass is below 60; a chirp mass below 22 skips; a commit or trigger needs the gates from Fritz on; a replacement happens only before sunset after the delete of the old plan |
| Admission.AdmitLocated | trigger.py:200-303 | from the Fritz lookup on only the plan gate retracts; a commit or trigger needs a Fritz event, a plan meeting the criteria, an age of at most a day and, for an untriggered event, no earlier submission |
| Admission.AdmitPlanned | trigger.py:256-303 | a commit or trigger needs the plan criteria, the age limit and no foreign submission; for a stored trigger it also needs the time before sunset, and the delete of the old plan is the first new request |
| Admission.PlanGates | trigger.py:268-303 | the plan, age and submission gates keep the guarantees of `AdmitPlanned` for a given plan |
| Admission.Replace | trigger.py:290-303 | for a stored trigger the old plan is deleted, and only before sunset, before the new one is triggered |
| Admission.AdmitCovered | trigger.py:305-361 | coverage at least 0.9 x the plan's probability records a serendipitous row and sends no trigger; below it a trigger is requested unless testing; a commit needs the cadence and appends `LoggedRow` |
| Admission.CoveredAt | trigger.py:320-361 | the same for a given coverage verdict |
| Admission.TriggerRefused | trigger.py:337 | a refused trigger request is a skip that leaves the log, the request having been sent |
| Admission.CommitRequested | trigger.py:336-361 | after a sent trigger the event is committed with its pending row, unless the cadence raises |
| Admission.CommitCovered | trigger.py:342-361 | the commit appends exactly `LoggedRow` and adds no trigger request |
| Admission.Logged | trigger.py:349-361 | the log gains exactly the one row after the old rows, and one email follows the requests sent |
| Admission.AdmitLegacy | TriggerBot/bot/main.py:50-222 | a bad alert skips and an unreadable log crashes, both leaving the log; the mass gate uses the MLP mass only; a commit is a trigger needing every gate, no testing and no recent observation; TriggerBot never re-triggers and, before sunset, stops after deleting the stored plan; the oldest bot deletes it before sunset and triggers anew |
| Admission.AdmitLegacyLocated | TriggerBot/bot/main.py:105-211 | the same guarantees from the Fritz lookup on |
| Admission.AdmitLegacyPlanned | TriggerBot/bot/main.py:145-211 | a commit, trigger or plan removal needs the plan and age gates, no earlier submission and a clear queue; a commit or trigger also needs no testing and no recent observation |
| Admission.LegacyGates | TriggerBot/bot/main.py:150-211 | the plan gates keep the guarantees of `AdmitLegacyPlanned` for a given plan |
| Admission.LegacyTail | TriggerBot/bot/main.py:169-211 | past the gates each older bot's tail keeps those guarantees |
| Admission.TriggerBotTail | TriggerBot/bot/main.py:174-211 | with a stored trigger TriggerBot never triggers; it removes the plan exactly when before sunset and is otherwise too late; an untriggered event outside testing with no recent observation is triggered and logged |
| Admission.OldestTail | trigger/main.py:148-177 | with a stored trigger the oldest bot triggers only before sunset, deleting the old plan first |
| Admission.OldestTrigger | trigger/main.py:155-177 | testing mode and a recent observation stop before any trigger; a commit follows the trigger request |
| Admission.TriggerAndLog | TriggerBot/bot/main.py:200-211 | the trigger request is sent first; a commit appends exactly the older bots' row |
| Admission.AdmitOldest | trigger/main.py:182-191 | no exception escapes: a crash becomes a skip keeping the log as it was; otherwise the decision is that of the shared logic |
| Admission.Retract | trigger.py:134-143 | the method edits the log file as `Reject` says |
| Admission.PollFritz | trigger.py:206-211 | the polling loop returns `FritzLookup` of the attempts |
| Admission.PollPlans | trigger.py:232-238 | the polling loop returns `PollPlan` of the attempts |
| Admission.ProcessAlert | trigger.py:100-373 | the step-by-step processing ends in the decision, requests and log of `Admit` |
| Admission.Locate | trigger.py:200-303 | the method ends as `AdmitLocated` says |
| Admission.Decide | trigger.py:256-303 | the method ends as `AdmitPlanned` says |
| Admission.Commit | trigger.py:305-361 | the method ends as `AdmitCovered` says |
| Admission.DeliveredCount | trigger.py:96-99 | the messages with a value are at most the messages read |
| Admission.RunBatchCommits | trigger.py:94-377 | every outcome of a pass is committed in `finally`, at most one per delivered message, and a pass without a crash commits every delivered message |
| Admission.RunBatchCrashLast | trigger.py:368-377 | an exception other than `MyException` ends the pass: only the last outcome can be a crash |
| Admission.RunBatchStep | trigger.py:96-377 | a message without a value is passed over; a delivered one is decided against the log the earlier ones left, and a crash ends the pass |
| Admission.ConsumeBatch | trigger.py:94-377 | the consumer loop ends with the outcomes, commit count and log of `RunBatch` |
| Admission.ProcessLegacy | TriggerBot/bot/main.py:50-222 | the method ends as `AdmitLegacy` says |
| Admission.LocateLegacy | TriggerBot/bot/main.py:105-211 | the method ends as `AdmitLegacyLocated` says |
| Admission.DecideLegacy | TriggerBot/bot/main.py:145-211 | the method ends as `AdmitLegacyPlanned` says |
| Admission.ProcessOldest | trigger/main.py:42-191 | the method ends as `AdmitOldest` says |
| Cadence.DateInstant | trigger_utils/cadence_utils.py:117 | a "%Y-%m-%d" text reads as the midnight of its date |
| Cadence.LeadingSpaceInstant | trigger_utils/cadence_utils.py:32 | no text starting with a space reads as a time |
| Cadence.ItemEntry | trigger_utils/cadence_utils.py:29-46 | an unreadable start raises `ValueError`; before the start nothing is entered; within two days after it a check entry for the plan; later a give-up entry carrying the whole cell |
| Cadence.ItemEntries | trigger_utils/cadence_utils.py:29-46 | the row's entries fail exactly when some start is unreadable; else every plan due is checked, an expired plan gives up on the event, plans not yet started add nothing, and nothing else is entered |
| Cadence.RowEntries | trigger_utils/cadence_utils.py:15-46 | rows that are not valid or have no pending cell add nothing; every entry belongs to the row's event, a give-up carries its pending cell and a check its ids |
| Cadence.CheckPending | trigger_utils/cadence_utils.py:9-47 | a log with nothing pending on a valid row yields no entries |
| Cadence.CheckPendingSources | trigger_utils/cadence_utils.py:9-47 | every entry comes from a valid row of its event that has a pending cell: a give-up carries that cell, a check that row's ids |
| Cadence.WrittenCellClassified | trigger_utils/cadence_utils.py:22-46 | a pending cell written from plans is read back as exactly those plans |
| Cadence.LoggedPlanClassified | trigger_utils/cadence_utils.py:29-46 | a row pending one plan as the "(id,start)" text is waited on before its start, checked for two days, then given up on |
| Cadence.TuplePendingStopsCheck | trigger_utils/cadence_utils.py:22-32 | a cell in the tuple form the trigger bot writes makes the whole check raise `ValueError` |
| Cadence.CheckPendingStep | trigger_utils/cadence_utils.py:15-47 | an error on a row ends the pass; otherwise its entries come first |
| Cadence.ItemEntriesStep | trigger_utils/cadence_utils.py:29-46 | an error on a plan ends the row; otherwise its entry comes first |
| Cadence.ClassifyPlans | trigger_utils/cadence_utils.py:29-46 | the loop over a row's plans returns `ItemEntries` |
| Cadence.RowPending | trigger_utils/cadence_utils.py:15-46 | the loop body for one row returns `RowEntries` |
| Cadence.CheckPendingObservations | trigger_utils/cadence_utils.py:9-47 | the loop over the log returns `CheckPending` |
| CadencePass.MoveText | trigger_utils/cadence_utils.py:72-73 | moving a text between columns never yields a retry |
| CadencePass.MoveTextEffect | trigger_utils/cadence_utils.py:72-82 | a move raises `IndexError` exactly when the event has no row and `MyException` exactly when its first row has no pending cell, the append being kept; otherwise every row of the event gets the text appended to the target and removed from pending, and no other row or column changes |
| CadencePass.Appended | trigger_utils/trigger_utils.py:600-611 | the append keeps the event's first row first and its pending cell, and changes only the event's target cells |
| CadencePass.MoveWithoutPending | trigger_utils/cadence_utils.py:72-73 | for an event with no pending cell the move stops with `MyException` after the append |
| CadencePass.MoveWithPending | trigger_utils/cadence_utils.py:72-73 | for an event with a pending cell both writes happen |
| CadencePass.MovedThrough | trigger_utils/cadence_utils.py:72-73 | with a pending cell neither write raises and the move ends with the removal |
| CadencePass.FirstRowKept | trigger_utils/trigger_utils.py:604-606 | a table with the same ids in the same order has the same first row for every event |
| CadencePass.EntryStep | trigger_utils/cadence_utils.py:70-85 | an unobserved checked plan either becomes exactly one same-night retry, leaving the log, or raises `ValueError` on an unreadable `dateobs`; no other entry yields a retry |
| CadencePass.RetriesOf | trigger_utils/cadence_utils.py:84 | the retries are exactly the checked entries with no observation, at most one per entry |
| CadencePass.PendingPass | trigger_utils/cadence_utils.py:61-90 | a pass that ends early ends on an exception other than `MyException` and returns no retries; a finished pass returns exactly `RetriesOf` the entries, in order |
| CadencePass.EntryStepSkeleton | trigger_utils/cadence_utils.py:70-85 | one entry changes only the observation columns, and only rows of its own event |
| CadencePass.PendingPassSkeleton | trigger_utils/cadence_utils.py:61-90 | the pass keeps the rows, ids and every other column, and leaves rows of events with no entry as they were |
| CadencePass.ParsePending | trigger_utils/cadence_utils.py:49-90 | a crash returns no retries; otherwise the check succeeded and the retries are those of its entries |
| CadencePass.PassOverEntries | trigger_utils/cadence_utils.py:59-61 | when the check succeeds the pass runs over exactly its entries |
| CadencePass.OneRowPass | trigger_utils/cadence_utils.py:15-47 | the check of a one-row log is that row's entries |
| CadencePass.MoveWholeCell | trigger_utils/cadence_utils.py:72-73 | moving the whole pending cell empties pending and appends the cell to the target |
| CadencePass.LoggedEntries | trigger_utils/cadence_utils.py:29-46 | a row pending one plan as the "(id,start)" text yields one check within two days of its start and one give-up later |
| CadencePass.GiveUpPass | trigger_utils/cadence_utils.py:70-75 | a give-up moves the pending cell to the unsuccessful column |
| CadencePass.ObservedPass | trigger_utils/cadence_utils.py:79-82 | an observed plan moves to the successful column |
| CadencePass.RetryPass | trigger_utils/cadence_utils.py:83-85 | an unobserved plan becomes a retry and leaves the row as it was |
| CadencePass.ExpiredPlanGivenUp | trigger_utils/cadence_utils.py:44-46 | on a one-row log a plan pending as the "(id,start)" text and expired for more than two days is moved to the unsuccessful column |
| CadencePass.ObservedPlanSucceeds | trigger_utils/cadence_utils.py:37-43 | on a one-row log a due plan pending as the "(id,start)" text with an executed observation is moved to the successful column |
| CadencePass.UnobservedPlanRetried | trigger_utils/cadence_utils.py:83-85 | on a one-row log a due plan pending as the "(id,start)" text with no observation becomes a same-night retry and the log is unchanged |
| CadencePass.TwoExpiredItems | trigger_utils/cadence_utils.py:44-46 | two expired plans in one cell give two identical give-ups |
| CadencePass.TwoExpiredEntries | trigger_utils/cadence_utils.py:22-46 | a cell of two expired plans makes the check yield the same give-up twice |
| CadencePass.TwoGiveUpsPass | trigger_utils/cadence_utils.py:70-75 | the second give-up appends the whole cell once more and its removal raises `MyException`, which is caught |
| CadencePass.TwoExpiredPlansLoggedTwice | trigger_utils/cadence_utils.py:44-75 | a cell of two expired plans ends up twice in the unsuccessful column |
| CadencePass.SecondGiveUp | trigger_utils/cadence_utils.py:72-73 | a give-up for a row whose pending cell is already empty appends, then raises `MyException` |
| CadencePass.PendingPassStep | trigger_utils/cadence_utils.py:61-89 | an entry raising anything but `MyException` ends the pass; otherwise its retries come first |
| CadencePass.MoveEntry | trigger_utils/cadence_utils.py:72-73 | the two calls of `update_trigger_log` edit the log file as `MoveText` says |
| CadencePass.HandleEntry | trigger_utils/cadence_utils.py:62-89 | one loop iteration edits the file and returns as `EntryStep` says |
| CadencePass.HandleEntries | trigger_utils/cadence_utils.py:61-89 | the loop ends with the retries, log and crash of `PendingPass` |
| CadencePass.ParsePendingObservations | trigger_utils/cadence_utils.py:49-90 | the whole pass ends as `ParsePending` says |
| CadencePass.DateFollowups | trigger_utils/cadence_utils.py:116-123 | an unreadable date raises `ValueError`, exactly when there is one; else one follow-up of the row for each date that is today |
| CadencePass.RowFollowups | trigger_utils/cadence_utils.py:110-123 | a row that is not valid adds nothing; a valid row with no cadence raises `AttributeError`; every follow-up is the row's |
| CadencePass.TriggerOnCadence | trigger_utils/cadence_utils.py:93-124 | a log with no valid row has no follow-ups; every follow-up is of a valid row; the only errors are `ValueError` and `AttributeError` |
| CadencePass.CountOnIncreasing | trigger_utils/cadence_utils.py:116-117 | dates at strictly increasing day offsets are today at most once, exactly when today's offset is one of them |
| CadencePass.IsoClockReadsDates | trigger_utils/cadence_utils.py:117 | astropy's reading of a "%Y-%m-%d" date is its midnight |
| CadencePass.DateRead | trigger_utils/cadence_utils.py:117 | a clock that reads dates reads each one as its day number |
| CadencePass.CadenceDatesOnce | trigger_utils/cadence_utils.py:116-117 | a cadence generated from a date is today at most once, exactly when today is one of the cadence offsets after it, and every date in it reads |
| CadencePass.LoggedCadenceFollowups | trigger_utils/cadence_utils.py:110-123 | a valid row with a logged cadence yields one follow-up on each cadence day and none otherwise |
| CadencePass.FollowupsCounted | trigger_utils/cadence_utils.py:116-123 | when every date reads, the follow-ups are one per date that is today |
| CadencePass.DateFollowupsStep | trigger_utils/cadence_utils.py:116-123 | the first date raises or adds its follow-up before the rest |
| CadencePass.TriggerOnCadenceStep | trigger_utils/cadence_utils.py:110-123 | the first row raises or adds its follow-ups before the rest |
| CadencePass.RowCadence | trigger_utils/cadence_utils.py:110-123 | the per-row loop returns `RowFollowups` |
| CadencePass.TriggerOnCadenceRows | trigger_utils/cadence_utils.py:93-124 | the loop over the log returns `TriggerOnCadence` |
| CadenceBot.PendingPair | TriggerBot/bot/cadencefunctions.py:23 | unpacking raises `ValueError` exactly when the stripped cell does not split into two parts; the plan id part holds no comma |
| CadenceBot.PlanTextPair | TriggerBot/bot/cadencefunctions.py:23 | the "(id,start)" text of a plan splits back into its id and start |
| CadenceBot.TupleTextPair | TriggerBot/bot/cadencefunctions.py:23 | the tuple text splits into the id and the start with a leading space and quotes |
| CadenceBot.PendingPairOf | TriggerBot/bot/cadencefunctions.py:23 | any "(n,s)" with parts free of commas and outer parentheses splits into `n` and `s` |
| CadenceBot.BotRowEntry | TriggerBot/bot/cadencefunctions.py:15-38 | rows not valid or without a pending cell add nothing; only such a cell can raise, and only `ValueError`; an entry is a check or a give-up of the row's whole cell |
| CadenceBot.BotLoggedPlanClassified | TriggerBot/bot/cadencefunctions.py:23-38 | a row pending one plan as the "(id,start)" text raises when its start is unreadable, waits before it, is checked for two days and then given up on |
| CadenceBot.BotTuplePendingStops | TriggerBot/bot/cadencefunctions.py:23-26 | a pending cell in the tuple form the older bots write makes the check raise `ValueError` |
| CadenceBot.BotCheckPending | TriggerBot/bot/cadencefunctions.py:9-39 | at most one entry per row, each from a valid row with a pending cell; only `ValueError` can escape; nothing pending gives no entry |
| CadenceBot.BotCheckPendingStep | TriggerBot/bot/cadencefunctions.py:15-38 | an error on a row ends the check; otherwise its entry comes first |
| CadenceBot.BotCheckPendingObservations | TriggerBot/bot/cadencefunctions.py:9-39 | the loop returns `BotCheckPending` |
| CadenceBot.SettledEffect | TriggerBot/bot/cadencefunctions.py:57-58 | settling overwrites the target column of every row of the event and clears its pending cell, changing nothing else |
| CadenceBot.BotEntryStep | TriggerBot/bot/cadencefunctions.py:46-72 | a give-up always raises `MyException`, after settling the cell as unsuccessful and emailing unless testing; a check raises only `ValueError`, exactly on an unreadable `dateobs`, and otherwise becomes a retry exactly when there is no match, or is settled as successful unless testing; testing never changes the log or emails |
| CadenceBot.BotPendingPass | TriggerBot/bot/cadencefunctions.py:41-77 | only `ValueError` ends the pass, losing the retries; a finished pass returns exactly `RetriesOf` its entries; only emails are sent, and none in testing, which leaves the log |
| CadenceBot.BotPendingPassStep | TriggerBot/bot/cadencefunctions.py:45-76 | an entry raising anything but `MyException` ends the pass; otherwise its retries and emails come first |
| CadenceBot.BotParsePending | TriggerBot/bot/cadencefunctions.py:41-77 | the guarantees of `BotPendingPass` for the entries the check found |
| CadenceBot.BotGiveUpRecorded | TriggerBot/bot/cadencefunctions.py:54-61 | outside testing a give-up overwrites the event's unsuccessful column with the cell, clears pending, emails and raises `MyException` |
| CadenceBot.BotSuccessRecorded | TriggerBot/bot/cadencefunctions.py:63-69 | outside testing an observed plan overwrites the successful column with the cell and clears pending |
| CadenceBot.BotObservedPlanSettled | TriggerBot/bot/cadencefunctions.py:23-69 | on a one-row log a due, observed plan pending as the "(id,start)" text is settled as successful with no retry and no email |
| CadenceBot.BotDueEntries | TriggerBot/bot/cadencefunctions.py:29-36 | a one-row table pending a due plan as the "(id,start)" text yields one check of that cell |
| CadenceBot.BotPassOverEntries | TriggerBot/bot/cadencefunctions.py:43-45 | when the check succeeds the pass runs over exactly its entries |
| CadenceBot.BotObservedPass | TriggerBot/bot/cadencefunctions.py:63-69 | an observed check is settled as successful |
| CadenceBot.BotOneRow | TriggerBot/bot/cadencefunctions.py:15-39 | the check of a one-row log is that row's entry |
| CadenceBot.BotOneEntry | TriggerBot/bot/cadencefunctions.py:45-76 | a pass over one entry ends as that entry does |
| CadenceBot.BotHandleEntry | TriggerBot/bot/cadencefunctions.py:46-76 | one loop iteration edits the file and returns as `BotEntryStep` says |
| CadenceBot.Settle | TriggerBot/bot/cadencefunctions.py:57-58 | the two writes leave the log as `Settled` says |
| CadenceBot.BotHandleEntries | TriggerBot/bot/cadencefunctions.py:45-76 | the loop ends as `BotPendingPass` says |
| CadenceBot.BotParsePendingObservations | TriggerBot/bot/cadencefunctions.py:41-77 | the whole pass ends as `BotParsePending` says |
| CadenceBot.BotTestingKeepsRows | TriggerBot/bot/cadence.py:58-59 | in testing the TriggerBot retrigger loop leaves the log as it found it |
| CadenceBot.BotCadenceRun | TriggerBot/bot/cadence.py:21-82 | follow-ups come before retries; testing sends no trigger and leaves the log; every request is attempted unless an attempt ended the script |
| CadenceBot.TestingOrderDiffers | TriggerBot/bot/cadence.py:58-64 | in testing, a plan missing the criteria is noted as unsuccessful by cadence.py but left alone by the TriggerBot loop, which stops first |
| CadenceBot.RunCadenceTriggerBot | TriggerBot/bot/cadence.py:21-82 | the script ends as `BotCadenceRun` says |
| RetriggerLoop.CellInt | cadence.py:71-72 | `int()` of a stored id: `TypeError` on NaN, `ValueError` on a text that is not an integer, else its value |
| RetriggerLoop.StoredIdRead | cadence.py:71-72 | an id written as an integer text reads back as that integer |
| RetriggerLoop.RetriggerMessage | cadence.py:144-147 | the email says a scheduled follow-up exactly for a follow-up request, and ends with the event id |
| RetriggerLoop.PlanOfError | trigger_utils/trigger_utils.py:300-354 | the only exception the plan polling lets escape is `NameError` |
| RetriggerLoop.PlanStep | cadence.py:101-149 | a plan over 5400 s or under 0.5 probability is appended to the unsuccessful column and nothing is sent; testing sends nothing; a retrigger sends the trigger and the email and appends the plan to pending; a refused trigger keeps the log; a missing row raises `IndexError` |
| RetriggerLoop.RetriggerStep | cadence.py:67-153 | an unreadable stored id sends nothing; the plan request comes first; no plan found keeps the log; testing never triggers; a retrigger is plan request, trigger, email; only `TypeError`, `ValueError`, `NameError` or `IndexError` end the script |
| RetriggerLoop.TestingStepNoTrigger | cadence.py:124-129 | no attempt in testing sends a trigger |
| RetriggerLoop.RunRetriggers | cadence.py:64-153 | no more outcomes than requests |
| RetriggerLoop.RunRetriggersAborts | cadence.py:64-153 | every request is attempted unless one ended the script, and only the last can have |
| RetriggerLoop.RunRetriggersTesting | cadence.py:124-129 | in testing the whole loop sends no trigger |
| RetriggerLoop.FollowUpsThenRetries | cadence.py:62 | `followup + retry` puts every follow-up before every retry |
| RetriggerLoop.RetriesAreRetries | trigger_utils/cadence_utils.py:84 | the pending pass yields only retries |
| RetriggerLoop.CadenceRun | cadence.py:52-153 | follow-ups come before retries; testing sends no trigger; every request is attempted unless an attempt ended the script |
| RetriggerLoop.RetriggeredPlanPending | cadence.py:134-142 | a retriggered plan is appended to the pending cell of every row of its event, nothing else changing |
| RetriggerLoop.RetriggeredRows | cadence.py:135-142 | a retrigger writes exactly the append of the plan to pending |
| RetriggerLoop.RejectedRows | cadence.py:107-115 | a rejected plan writes exactly the append to the unsuccessful column and sends no trigger |
| RetriggerLoop.PendingAppended | trigger_utils/trigger_utils.py:600-611 | appending to pending changes only that cell of the event's rows |
| RetriggerLoop.UnsuccessfulAppended | trigger_utils/trigger_utils.py:600-611 | appending to the unsuccessful column changes only that cell of the event's rows |
| RetriggerLoop.RejectedPlanUnsuccessful | cadence.py:107-118 | a rejected plan is appended to the unsuccessful cell of every row of its event, nothing else changing, and no trigger is sent |
| RetriggerLoop.TestingLeavesPending | cadence.py:124-129 | in testing an attempt sends no trigger and leaves the pending and successful columns |
| RetriggerLoop.RetriggerThenWatch | cadence.py:134-142 | a plan retriggered for an event with nothing pending is what the next pending check waits on, checks for two days and then gives up on |
| RetriggerLoop.RunRetriggersStop | cadence.py:64-153 | an attempt ending the script ends the loop |
| RetriggerLoop.RunRetriggersGoOn | cadence.py:151-153 | a caught exception goes on to the next request |
| RetriggerLoop.RetriggerOne | cadence.py:67-153 | one attempt edits the file and returns as `RetriggerStep` says |
| RetriggerLoop.PlanFollowThrough | cadence.py:101-149 | the rest of an attempt ends as `PlanStep` says |
| RetriggerLoop.RetriggerAt | cadence.py:65-153 | one loop iteration advances `RunRetriggers` by one request |
| RetriggerLoop.RunRetriggerLoop | cadence.py:64-153 | the loop ends as `RunRetriggers` says |
| RetriggerLoop.RunCadence | cadence.py:52-153 | the script ends as `CadenceRun` says |
| PhotoBatch.KeptAligned | flares_utils/photometry_utils.py:120-133 | the coordinate filter and the date filter of the update path keep the same positions: the k-th kept coordinate has the k-th kept date as its stored latest date, that date is updatable, and every updatable stored pair is kept |
| PhotoBatch.GetAgnCoords | flares_utils/photometry_utils.py:77-133 | 'all' gives every crossmatched AGN at declination -30 or above with the two-year baseline date; 'new' the ones with no stored light curve; 'update' fails with KeyError exactly when the flare record has no `date_last_zfps`, gives no photometry exactly when the flare record is empty, and otherwise gives the footprint AGN whose stored light curve is updatable, each aligned with its latest date |
| PhotoBatch.SortByDateSorted | flares_utils/photometry_utils.py:142 | sorting the (date, coordinate) pairs by date gives a date-ordered permutation of them |
| PhotoBatch.GroupedShape | flares_utils/photometry_utils.py:144-160 | the grouping loop's groups concatenate back to the sorted pairs, dates within a group are at most the threshold apart, and consecutive groups are more than the threshold apart |
| PhotoBatch.GroupedFlatten | flares_utils/photometry_utils.py:148-160 | no pair is lost, duplicated or reordered by the grouping |
| PhotoBatch.GroupedClose | flares_utils/photometry_utils.py:149-151 | a pair joins the current group only within the threshold of the group's last date |
| PhotoBatch.GroupedApart | flares_utils/photometry_utils.py:152-156 | a new group starts only more than the threshold after the previous group's last date |
| PhotoBatch.UpdateBatching | flares_utils/photometry_utils.py:135-163 | batching fails with ValueError exactly when there are no coordinates or no dates; otherwise there is one single date per group, at least one group, and no empty group |
| PhotoBatch.UpdateBatchingShape | flares_utils/photometry_utils.py:142-163 | the grouped coordinates are the coordinates in date order, each group's single date is its earliest (first) date, groups are internally close and mutually apart |
| PhotoBatch.CustomUpdateBatching | flares_utils/photometry_utils.py:135-163 | the loop over the sorted pairs produces exactly the batches of `UpdateBatching` |
| PhotoBatch.BatchStep | flares_utils/photometry_utils.py:148-156 | one loop iteration extends the current group when the date is within the threshold of its last date, and closes it and opens a new one otherwise, keeping the loop's state equal to the grouping of the prefix |
| PhotoBatch.FlattenRadecList | flares_utils/photometry_utils.py:166-176 | the loop builds exactly the flattened list: list sub-items of a nested item are spliced in, everything else is kept whole |
| PhotoBatch.FlattenRadecBatches | flares_utils/photometry_utils.py:166-176 | applied to one list of batches per date group, flattening gives every batch of every group in order |
| PhotoBatch.FlattenRadecDropsNumbers | flares_utils/photometry_utils.py:172-173 | a nested item loses its non-list sub-items, while a bare number at the top level is kept |
| PhotoBatch.ChunksOfRa | flares_utils/photometry_utils.py:193-194 | chunking the right ascensions and declinations by 1500 is the same as chunking the coordinates and projecting each chunk |
| PhotoBatch.FormatForZfps | flares_utils/photometry_utils.py:178-198 | no coordinates give only the "no AGN observable by ZTF" marker; otherwise batches of at most 1500 that concatenate to the coordinates, with the date repeated once per batch in update mode and given once otherwise |
| PhotoBatch.FormatForZfpsOld | FlareBot/bot/photometry_utils.py:182-210 | the FlareBot version refuses more than 15000 coordinates, gives the marker for none, one unbatched request for up to 1500, and 1500-sized batches in between |
| PhotoBatch.FormatVersionsAgree | FlareBot/bot/photometry_utils.py:190-210 | the two versions give the same batches between 1501 and 15000 coordinates, and for up to 1500 the current version's single batch holds the older version's unbatched lists |
| PhotoBatch.UpdateRequest | flares_utils/photometry_utils.py:225-234 | the update request fails with ValueError exactly when batching does; otherwise its batches concatenate to the coordinates in date order, each holds 1 to 1500 coordinates, and each carries one of the groups' single dates |
| PhotoBatch.UpdateRaDec | flares_utils/photometry_utils.py:228-233 | formatting each date group and concatenating their batches gives the date-ordered right ascensions and declinations, in batches of 1 to 1500 |
| PhotoBatch.UpdateJd | flares_utils/photometry_utils.py:195-196 | the concatenated update dates have one entry per batch, each a group's single date |
| PhotoBatch.BaselineRequest | flares_utils/photometry_utils.py:236-237 | the 'all' and 'new' request fails with TypeError exactly when there are no coordinates; otherwise its batches concatenate to the coordinates, number the ceiling of n/1500, and all carry the baseline date |
| PhotoBatch.BacklogPartition | flares_utils/photometry_utils.py:241-257 | over 15000 coordinates, the first ten batches submitted now and the ten-batch slices queued partition the batches in order for ra, dec and jd alike, each slice's count is its number of coordinates, and there are ceil(batches/10) - 1 slices |
| PhotoBatch.BacklogSlices | flares_utils/photometry_utils.py:243-252 | every queued slice holds 1 to 10 batches and records its own number of coordinates |
| PhotoBatch.PhotometryRequest | flares_utils/photometry_utils.py:222-237 | a KeyError from the coordinate lookup propagates, an event with no flare photometry fails to unpack with TypeError, and a request counts exactly the coordinates the lookup returned, never zero |
| PhotoBatch.GetPhotometryCoords | flares_utils/photometry_utils.py:222-259 | fails exactly when the request does; within 15000 coordinates the whole request goes now with nothing queued, and over it at most ten batches go now with their coordinate count |
| PhotoQueue.PlainName | flares_utils/photometry_utils.py:265 | the queue file of an event is a JSON file name |
| PhotoQueue.StampedName | flares_utils/photometry_utils.py:267-268 | the timestamped name for a second slice is a JSON file name too |
| PhotoQueue.QueueIdShape | flares_utils/photometry_utils.py:292-293 | the id read from a queue file's name is the name without ".json", and also without a trailing underscore and fourteen digits when it ends in them |
| PhotoQueue.QueueIdPlain | flares_utils/photometry_utils.py:265 | an event's plain queue file reads back as that event's id, when the id does not itself end in an underscore and fourteen digits (also lines 292-293) |
| PhotoQueue.QueueIdStamped | flares_utils/photometry_utils.py:267-268 | a timestamped queue file reads back as its event's id (also lines 292-293) |
| PhotoQueue.SecondSliceOverwrites | flares_utils/photometry_utils.py:265-278 | as written, queuing a second slice for an event leaves the directory as if only the second had been queued: the first slice survives nowhere it was not already |
| PhotoQueue.QueuedSlicesKept | flares_utils/photometry_utils.py:265-278 | with the timestamped name the code builds, two slices queued for one event at different times go to different files, both are kept, both read back with the event's id, and no queued file is lost |
| PhotoQueue.Retrieved | flares_utils/photometry_utils.py:280-300 | every retrieved entry comes from a JSON file of the listing, carries the id read from its name and that file's contents, and there are no more entries than listed names |
| PhotoQueue.RetrievedAll | flares_utils/photometry_utils.py:287-299 | every JSON file of the listing is retrieved |
| PhotoQueue.QueueDir.QueuePhotometry | flares_utils/photometry_utils.py:261-278 | the waiting directory gains the slice under the intended name of `Queue` (`{graceid}.json` while free, else the timestamped name), and the completed directory is unchanged |
| PhotoQueue.QueueDir.RetrieveQueuePhotometry | flares_utils/photometry_utils.py:280-300 | the loop over the listing returns exactly the retrieved entries, in listing order |
| PhotoQueue.QueueDir.MoveCompleteQueuedPhotometry | flares_utils/photometry_utils.py:302-314 | a waiting file leaves the queue and appears, with the same contents, among the completed files; a missing file changes nothing |
| PhotoQueue.QueueDir.QueueBacklog | flares_utils/photometry_utils.py:243-252 | the backlog loop queues every slice in turn under the intended names, one clock reading per slice, and touches nothing else |
| PhotoQueue.QueueAllKeeps | flares_utils/photometry_utils.py:243-252 | with the intended names, queuing the whole backlog keeps every name already waiting (its contents only under `QueueAllStores`' fresh clock readings) |
| PhotoQueue.SliceNamesDistinct | flares_utils/photometry_utils.py:243-268 | clock readings that all differ and name no waiting file give every backlog slice a name of its own that is not waiting yet |
| PhotoQueue.QueueAllKeepsContents | flares_utils/photometry_utils.py:243-278 | with such readings, queuing the backlog never changes the contents of a file already waiting |
| PhotoQueue.QueueAllSlices | flares_utils/photometry_utils.py:243-278 | with such readings, slice `k` of the backlog ends up, unchanged, under its own name |
| PhotoQueue.QueueAllOnly | flares_utils/photometry_utils.py:243-278 | queuing adds no file but the slices' |
| PhotoQueue.QueueAllStores | flares_utils/photometry_utils.py:243-278 | with pairwise-distinct one-second clock readings naming no waiting file, the whole backlog is kept: every waiting file keeps its contents, each slice sits under a distinct name of its own, and nothing else is added |
| PhotoLog.RoundHalfEven | flares_utils/photometry_utils.py:738 | Python's `round` of the age in days: an integer within a half of it, the even one on a tie |
| PhotoLog.CompletedStep | flares_utils/photometry_utils.py:635-639 | reading one event's date can only fail with ValueError |
| PhotoLog.CompletedFrom | flares_utils/photometry_utils.py:634-642 | the pass over the events keeps exactly the same event ids |
| PhotoLog.CompletedOnlySets | flares_utils/photometry_utils.py:630-642 | the pass only ever sets `over_200_days` to True, never clears it, never touches an event's date or zfps list, and sets it only for a reached event whose date reads as more than 200 days back |
| PhotoLog.CompletedMarksOld | flares_utils/photometry_utils.py:634-639 | when no date fails to parse, every event more than 200 days old is marked |
| PhotoLog.SummaryUpdate | flares_utils/photometry_utils.py:644-657 | 'new_request' adds to the total requests, 'saved_request' to the total saved, nothing else changes; another keyword raises ValueError and adding None raises TypeError |
| PhotoLog.WaitingOf | flares_utils/photometry_utils.py:743-745 | the waiting list holds exactly the incomplete request entries of the event, with their submission date, batch count and action, skipping string markers |
| PhotoLog.RequestsSoFar | flares_utils/photometry_utils.py:747 | the requests counted are among the zfps items |
| PhotoLog.PassedThresholds | flares_utils/photometry_utils.py:748 | at most all six cadence thresholds have passed |
| PhotoLog.UpdateDueExactly | flares_utils/photometry_utils.py:748-750 | an update request is due exactly when at least one threshold (9, 16, 23, 30, 52, 100 days) has passed and fewer requests than one plus the number passed have been made |
| PhotoLog.EventStatus | flares_utils/photometry_utils.py:735-751 | an event raises ValueError exactly when it is in the window and dated but its date is unreadable; it asks for an update, once, with its date and 'update', exactly when it is in the window, dated, at least 9 days old after rounding and short of one request per threshold passed plus the initial one; its waiting entries are listed exactly when it is at least 7 days old, and none otherwise |
| PhotoLog.StatusFrom | flares_utils/photometry_utils.py:728-754 | the pass succeeds exactly when no event of the pipeline has an unreadable date, and otherwise raises ValueError; at most one update request per event, each with action 'update' |
| PhotoLog.StatusFromExactly | flares_utils/photometry_utils.py:734-751 | the update requests are exactly those of the events that need one, each with the event's date, and the waiting list holds exactly the waiting entries of the events at least a week old |
| PhotoLog.StatusAppend | flares_utils/photometry_utils.py:734-751 | the pass over two runs of events is the first run's results followed by the second's, and the first exception stops it: events are reported in the order they are visited |
| PhotoLog.StatusOne | flares_utils/photometry_utils.py:735-751 | the pass over one event returns that event's status |
| PhotoLog.FirstDated | flares_utils/photometry_utils.py:761-762 | finds the first entry with the submission date, with none before it; fails with TypeError exactly when a string marker is reached first; reports none when no entry has the date |
| PhotoLog.CompleteUpdate | flares_utils/photometry_utils.py:756-777 | keeps the event ids, and an unknown event changes nothing |
| PhotoLog.CompleteUpdateMarksFirst | flares_utils/photometry_utils.py:760-774 | when an entry has the submission date, only the first such entry is marked complete with its batch ids and return counts, the returned count is added to the saves and not to the requests, and every other entry and event is unchanged |
| PhotoLog.EventAdded | flares_utils/photometry_utils.py:695-710 | a new event is appended with its data and an existing one is left untouched, keeping the id list and the event map in step |
| PhotoLog.EntryAdded | flares_utils/photometry_utils.py:712-726 | a known event gains the entry at the end of its zfps list and its AGN count is added to the requests; an entry without a count is appended and then raises TypeError without touching the totals; an unknown event changes nothing |
| PhotoLog.PhotometryLogFile.CheckCompletedEvents | flares_utils/photometry_utils.py:630-642 | the loop leaves the events as the pass over them does, stopping at the first unreadable date |
| PhotoLog.PhotometryLogFile.UpdateSummaryStats | flares_utils/photometry_utils.py:644-657 | the totals become the summary update's, or stay as they were when it raises |
| PhotoLog.PhotometryLogFile.SaveNumPending | flares_utils/photometry_utils.py:659-666 | only the pending count changes |
| PhotoLog.PhotometryLogFile.AddEvent | flares_utils/photometry_utils.py:695-710 | the record becomes the one with the event added, and the totals are unchanged |
| PhotoLog.PhotometryLogFile.AddZfpsEntry | flares_utils/photometry_utils.py:712-726 | the record becomes the one with the entry added, raising as it does |
| PhotoLog.PhotometryLogFile.CheckPhotometryStatus | flares_utils/photometry_utils.py:728-754 | the loop returns the events needing an update and the waiting entries of the status pass, changing nothing |
| PhotoLog.PhotometryLogFile.UpdatePhotometryComplete | flares_utils/photometry_utils.py:756-777 | the search loop leaves the record as the completion update does |
| PhotoLog.PrefixLeadsTo | flares_utils/photometry_utils.py:761-762 | after a prefix of entries without the date, the search's answer is decided by the next item |
| ZfpsSubmit.Posts | flares_utils/photometry_utils.py:377 | one post per position of the batch lists, as many as the shortest list, each pairing the batch's ra, dec and start date |
| ZfpsSubmit.SavePhotometryDate | flares_utils/photometry_utils.py:345-364 | returns no date for an empty request and the current time otherwise; a known event's `flare` section gets "NA" or that time as `date_last_zfps`; an unknown event or testing mode leaves the stored dictionary as it was |
| ZfpsSubmit.Submit | flares_utils/photometry_utils.py:366-388 | an empty request returns three Nones and posts nothing; otherwise it reports the submission time, the AGN count and the batch count, records the date, and in testing mode posts nothing and leaves the dictionary alone |
| ZfpsSubmit.PostedRaOf | flares_utils/photometry_utils.py:377 | with aligned lists, the posts carry the right-ascension batches unchanged and in order |
| ZfpsSubmit.PostsAllAgn | flares_utils/photometry_utils.py:370-377 | a live submission posts each batch once, in order, so the posts number the reported batches and hold exactly the reported AGN count |
| ZfpsSubmit.SubmissionEnablesUpdate | flares_utils/photometry_utils.py:345-364 | after a live submission for a known event, its flare record holds the submission date, so the next update lookup neither raises KeyError nor reports the event as having no photometry (also lines 109-133) |
| PhotoStatus.PriorityIds | flares_utils/photometry_utils.py:31-33 | the priority events are exactly those with mass above 60, 90% area below 1000 and FAR above 10, in dictionary order |
| PhotoStatus.AssignStatus | flares_utils/photometry_utils.py:49-62 | 'no AGN' exactly when the event has no crossmatched AGN or its date is "NA"; 'needs ZFPS' exactly for an empty date; 'error' exactly when the date does not parse; otherwise 'update ZFPS' up to 200 whole days old and 'complete' beyond |
| PhotoStatus.RowsReversed | flares_utils/photometry_utils.py:64 | the table lists the priority events in reverse order, one row each |
| PhotoStatus.ShowStatus | flares_utils/photometry_utils.py:22-66 | nothing when the events file cannot be read; otherwise the rows are exactly the priority events, each flagged as triggered exactly when it is in the trigger list |
| PhotoStatus.TableRows | flares_utils/photometry_utils.py:31-64 | for any trigger list, the table lists exactly the priority events and flags exactly the listed ones |
| PhotoStatus.ShowStatusFlareBot | FlareBot/bot/photometry_utils.py:29-72 | the FlareBot table is returned exactly when its events file can be read |
| PhotoStatus.ShowStatusEmFollowup | emfollowup/photometry_utils.py:29-74 | only the O4a and O4b runs are read; any other run leaves the dictionary unbound and raises NameError, and a missing file raises OSError |
| PhotoStatus.TriggerListsDiffer | flares_utils/photometry_utils.py:30 | the current trigger list is the earlier one plus S250319bu (also FlareBot/bot/photometry_utils.py:37) |
| PhotoStatus.StatusVersionsAgree | FlareBot/bot/photometry_utils.py:29-72 | the FlareBot table is the current one with the flag of S250319bu cleared, and the emfollowup table of a readable O4a or O4b run is the FlareBot one (also emfollowup/photometry_utils.py:29-74) |
| FlareRun.SubmittedEntry | flares.py:107-118 | the pipeline entry for a submission is an incomplete request entry carrying the submission date and AGN count, marked as from the queue exactly on the drain path (also lines 244-254) |
| FlareRun.Drained | flares.py:91-123 | a drained request keeps `do_photometry` and the event ids; with batches it raises the counter by the size of its batches, moves its file out of the queue and appends a from-queue entry to a known event; an empty one fails with TypeError without raising the counter |
| FlareRun.DrainCount | flares.py:74-87 | the drain submits at most the entries listed |
| FlareRun.DrainStopsAtFirstMisfit | flares.py:82-87 | every submitted entry's stated size fitted under 15000 once added to the counter so far, and the drain stops at the first that would not, trying none after it |
| FlareRun.DrainPending | flares.py:74-123 | with well-formed queue files the drain raises nothing and ends with the counter raised by every submitted entry's batch size |
| FlareRun.DrainStep | flares.py:82-123 | one submitted entry moves its file out of the queue and the drain goes on from the world it leaves |
| FlareRun.DrainMoves | flares.py:74-123 | the files of the submitted entries, and only those, leave the queue directory |
| FlareRun.DrainClearsFlag | flares.py:82-87 | `do_photometry` survives the drain exactly when it was set and every entry was submitted |
| FlareRun.DrainWithinCeiling | flares.py:82-88 | with well-formed queue files, where the checked size is the added size, a counter within 15000 stays within it through the drain (also lines 120) |
| FlareRun.SelectFrom | flares.py:177-200 | the selection loop leaves the counter, summary totals, queue and events dictionary as they were |
| FlareRun.SelectionExactly | flares.py:177-200 | with no bad date, the new requests are exactly the correct, triggered events less than a week old, in order; every other event not ignored is added to the pipeline record with its marker; no event is lost |
| FlareRun.Stamps | flares.py:223 | one clock reading per queue write (also flares_utils/photometry_utils.py:267) |
| FlareRun.Backlogged | flares_utils/photometry_utils.py:241-252 | queuing the backlog slices changes only the queue directory and the write count, growing the count by one per slice, and with the intended names loses no queued file |
| FlareRun.Overflowed | flares.py:220-228 | a request over the ceiling leaves the counter alone, clears `do_photometry`, records the event and queues its batches under the intended name of `Queue` |
| FlareRun.SubmittedNow | flares.py:230-261 | a request within the ceiling raises the counter by its AGN count, and a new event is recorded with exactly one incomplete 'new' entry for the submission |
| FlareRun.Admitted | flares.py:204-261 | one event through the ceiling check either leaves the counter alone or raises it to at most 15000, and records the event unless its coordinates fail; an event with no coordinates to request gets the flare record "no AGN observable by ZTF" (KeyError when it is not in the events dictionary), and the unpack of the None that `format_for_zfps` returns ends the run with TypeError (flares_utils/photometry_utils.py:184-191, 236) |
| FlareRun.AdmissionBounded | flares.py:204-261 | the admission loop only ever raises the counter and never past the higher of its start and 15000; every event reached is in the pipeline record afterwards; no queue file is lost |
| FlareRun.NoFailureBefore | flares.py:204-261 | a failure, once raised, is how the loop ends |
| FlareRun.CompleteFrom | flares.py:272-299 | retrieving photometry leaves the counter, the event ids and the queue alone |
| FlareRun.FlaggedExactly | flares.py:289-299 | with nothing raised, the events flagged for a flare check are exactly those with a saved result (also lines 305) |
| FlareRun.FlareRunState.StartUp | flares.py:59-66 | old events are marked, the waiting requests are those of the status pass, the counter is the reported pending count, and `do_photometry` is cleared exactly when that count exceeds 15000; a count of None raises TypeError |
| FlareRun.FlareRunState.DrainOne | flares.py:91-123 | the state after one queued submission is the drained world |
| FlareRun.FlareRunState.Drain | flares.py:70-123 | the loop over the queue directory as listed leaves the state the drain function describes |
| FlareRun.FlareRunState.DrainNext | flares.py:74-123 | one loop turn either ends the drain where the function does or leaves the rest of it to the remaining entries |
| FlareRun.FlareRunState.Select | flares.py:177-200 | the selection loop returns the requests and leaves the state the selection function describes |
| FlareRun.FlareRunState.QueueSlices | flares_utils/photometry_utils.py:243-252 | the state after queuing the backlog slices is the backlogged world |
| FlareRun.FlareRunState.Overflow | flares.py:220-228 | the state after an over-ceiling request is the overflowed world |
| FlareRun.FlareRunState.SubmitNow | flares.py:230-261 | the state after a live submission is the submitted world |
| FlareRun.FlareRunState.AdmitOne | flares.py:205-261 | the state after one event is the admitted world |
| FlareRun.FlareRunState.Admit | flares.py:204-261 | the admission loop leaves the state the admission function describes |
| FlareRun.FlareRunState.SavePending | flares.py:264 | only the stored pending count changes, to the counter |
| FlareRun.FlareRunState.CompleteReturned | flares.py:272-305 | the completion loop leaves the state the retrieval function describes and returns the flagged events, each once |
| FlareRun.FlareRunState.CompleteNext | flares.py:272-299 | one loop turn either ends the pass where the function does or leaves the rest to the remaining requests, with the events it flagged |
| AlertFiles.FirstListed | flares_utils/new_events_utils.py:80-100 | the chosen file is the most preferred listed one from the given position of the preference list, with no more preferred one listed; "none" exactly when none is listed |
| AlertFiles.NotNoFile | flares_utils/new_events_utils.py:80-99 | a listed alert file name is never "none" |
| AlertFiles.SelectFile | flares_utils/new_events_utils.py:77-102 | "none" exactly when some file name contains "etraction" or no preferred file is listed; otherwise the first listed file in the order -5-Update.xml,0 … -2-Preliminary.xml,0 (also FlareBot/bot/new_events_utils.py:63-77) |
| AlertFiles.AlertUrls | flares_utils/new_events_utils.py:103-104 | at most one URL per event; a URL is fetched exactly when it is some event's files link plus its chosen file and does not contain "none" (also FlareBot/bot/new_events_utils.py:78-80) |
| AlertFiles.NoFileDropped | flares_utils/new_events_utils.py:100-104 | an event given no file yields a URL containing "none", so nothing is fetched for it |
| AlertFiles.FreshEvents | flares_utils/new_events_utils.py:257-269 | with `retrieve_all` every superevent is read; otherwise exactly those whose id is not yet in the events dictionary |
| AlertFiles.Kept | flares_utils/new_events_utils.py:275 | the alerts processed are exactly those with P(BBH) above 0.5 and P(terrestrial) below 0.3 (also FlareBot/bot/new_events_utils.py:172) |
| AlertFiles.Cut | flares_utils/new_events_utils.py:274 | the alerts counted as cut are exactly those with P(BBH) below 0.5 or P(terrestrial) above 0.3 (also FlareBot/bot/new_events_utils.py:171) |
| AlertFiles.CutsDisjoint | flares_utils/new_events_utils.py:274-276 | no alert is both kept and cut, so the two counts never exceed the alerts read |
| AlertFiles.CutsNotExhaustive | flares_utils/new_events_utils.py:274-275 | an alert with P(BBH) exactly 0.5, or P(terrestrial) exactly 0.3, is neither kept nor cut |
| TriggerAudit.Predates | flares_utils/new_events_utils.py:340-342 | a date id that is not an ISO date with seconds raises ValueError; otherwise the event predates the trigger exactly when its date is before 2024-09-14 (also lines 366-368) |
| TriggerAudit.Matching | flares_utils/new_events_utils.py:335-337 | the matching requests are exactly those whose localization is for the event's date id |
| TriggerAudit.SubmittedOf | flares_utils/new_events_utils.py:359-363 | the submitted requests are exactly those with status "submitted to telescope queue" (also lines 383-387) |
| TriggerAudit.Observing | flares_utils/new_events_utils.py:394-402 | the eligible requests of an event not triggered are exactly those whose first plan has statistics with some observations; a request with no plan at all raises IndexError |
| TriggerAudit.StrLessTrans | flares_utils/new_events_utils.py:413 | Python's string order on `modified` is transitive |
| TriggerAudit.StrLessTotal | flares_utils/new_events_utils.py:413 | any two distinct `modified` texts are ordered one way or the other |
| TriggerAudit.StrLessIrreflexive | flares_utils/new_events_utils.py:413 | no text is before itself |
| TriggerAudit.LatestFrom | flares_utils/new_events_utils.py:413 | `max` by `modified` from a running best returns one of the requests with no later `modified` than it, and the first of those: every request before it is modified earlier |
| TriggerAudit.Latest | flares_utils/new_events_utils.py:413 | the chosen plan is one of the eligible requests, none is modified later, and every request before it is modified earlier, so ties go to the first |
| TriggerAudit.FirstStatistics | flares_utils/new_events_utils.py:414-418 | the figures come from the first statistics block of the first plan; an empty list raises IndexError |
| TriggerAudit.AuditVerdicts | flares_utils/new_events_utils.py:332-483 | an event before the trigger went live is never an error; an event is to be inspected exactly when it is live and has two or more submitted requests; an untriggered error always passes the event criteria; a triggered error is always a bad trigger whose plan fails the criteria |
| TriggerAudit.SerendipitousTriggered | flares_utils/new_events_utils.py:430-433 | a 'triggered' verdict for an event with no submitted request arises only in the current version, for an event that passes the criteria, with total time 0 and the date id plus ".000" as the start (also lines 460-473) |
| TriggerAudit.VersionsAgree | flares_utils/new_events_utils.py:332-483 | the two versions give the same verdict except where the current one finds serendipitous coverage for an untriggered event and the FlareBot one reports a missed trigger (also FlareBot/bot/new_events_utils.py:204-284) |
| TriggerAudit.CriteriaTriggered | flares_utils/new_events_utils.py:381-391 | a triggered event's verdict with figures carries the figures of its single submitted request, and is correct exactly when those figures meet all five criteria (also lines 413-459) |
| TriggerAudit.CriteriaUntriggered | flares_utils/new_events_utils.py:393-418 | an untriggered event's verdict with figures, other than the serendipitous one, carries the figures of the most recently modified observing plan, and is an error exactly when those figures meet all five criteria (also lines 434-483) |
| TriggerAudit.Verdicts | flares_utils/new_events_utils.py:490-495 | one verdict per zipped event, as many as the shorter list, each the audit's verdict for that event (also FlareBot/bot/new_events_utils.py:290-291) |
| TriggerAudit.IndexOf | flares_utils/new_events_utils.py:520-521 | `index` finds the first position of an id, and nothing exactly when it is absent |
| TriggerAudit.EditFrom | flares_utils/new_events_utils.py:519-522 | the manual edits replace the verdict at the first position of each hand-edited id and nothing else; IndexError exactly when such a position has no verdict |
| TriggerAudit.TriggerStatus | flares_utils/new_events_utils.py:485-488 | a failed plan query raises ValueError in the current version and TypeError in the FlareBot one (also FlareBot/bot/new_events_utils.py:287-288) |
| TriggerAudit.ManualEditsApplied | flares_utils/new_events_utils.py:508-523 | S240921cw, S241125n and S241130n get their fixed verdicts at their first position in the id list, and every other position keeps the audit's verdict (also FlareBot/bot/new_events_utils.py:300-309) |
| NewEventsDict.CadenceOf | flares_utils/new_events_utils.py:537-547 | an empty start gives an empty cell and any other start six dates; a start that is not a "%Y-%m-%dT%H:%M:%S.%f" time raises ValueError; the i-th date is the start's day plus the i-th offset of 7, 14, 21, 28, 40 and 50 days, written "%Y-%m-%d" |
| NewEventsDict.Cadences | flares_utils/new_events_utils.py:534-548 | the cadence column succeeds exactly when every start does, and then has one cell per start, in order |
| NewEventsDict.GenerateCadenceDates | flares_utils/new_events_utils.py:534-548 | the loop returns the cadence column, raising exactly when some start does not parse (also FlareBot/bot/new_events_utils.py:319-330) |
| NewEventsDict.Truncate | flares_utils/new_events_utils.py:567-569 | Python's `int` of a non-negative float is its whole part |
| NewEventsDict.StoredProbability | flares_utils/new_events_utils.py:568-570 | the plan probability stored as `int(round(p, 2))` is 0 for every probability below 0.995 and 1 from there up |
| NewEventsDict.GwOf | flares_utils/new_events_utils.py:573-600 | a new event's gw section holds the MJD and its trigger verdict, and a chirp-mass column exactly in the current version (also FlareBot/bot/new_events_utils.py:346-365) |
| NewEventsDict.Starts | flares_utils/new_events_utils.py:571 | one plan start per verdict, in order |
| NewEventsDict.RowsOf | flares_utils/new_events_utils.py:566-590 | one table row per event, holding its gw columns, verdict, plan figures, plan start and cadence |
| NewEventsDict.Table | flares_utils/new_events_utils.py:572-600 | the table keeps the events in order, each with its own verdict, and only with unique ids; columns of different lengths raise ValueError |
| NewEventsDict.AsInt | flares_utils/new_events_utils.py:637-646 | `int()` of a plan cell raises ValueError exactly on the empty text |
| NewEventsDict.PlanOf | FlareBot/bot/new_events_utils.py:384-389 | the FlareBot version copies the plan figures, start and cadence as they are |
| NewEventsDict.Refreshed | flares_utils/new_events_utils.py:616-629 | the refreshed gw section keeps every stored key and takes the new value of exactly the listed keys present in the new row (also FlareBot/bot/new_events_utils.py:378-381) |
| NewEventsDict.MergeKeepsOthers | flares_utils/new_events_utils.py:608-656 | after the merge, the dictionary's ids are the stored ones plus the table's, and every stored event not in the table is unchanged |
| NewEventsDict.MergeRowKeys | flares_utils/new_events_utils.py:609-656 | one merge turn adds its event's id and leaves every other event alone |
| NewEventsDict.MergedEvent | flares_utils/new_events_utils.py:609-656 | a new id gets the table's gw section with empty crossmatch and flare sections; a stored id keeps its crossmatch and flare sections and gets only the listed gw keys refreshed; triggered, bad-trigger and the four hand-picked events get a trigger plan with the table's start and cadence; the plan of any other stored event is untouched (also FlareBot/bot/new_events_utils.py:371-389) |
| NewEventsDict.RefreshKeepsMjd | flares_utils/new_events_utils.py:616-629 | a stored event keeps its recorded MJD when it comes again, and the FlareBot merge never fails here (also FlareBot/bot/new_events_utils.py:378-381) |
| NewEventsDict.SaveData | flares_utils/new_events_utils.py:550-671 | a failing table or a run that does not write leaves the dictionary on disk as it was; otherwise it becomes the merge of the table into the stored dictionary; the current version returns None exactly for an empty table (also FlareBot/bot/new_events_utils.py:332-403) |
| NewEventsDict.Merge | flares_utils/new_events_utils.py:608-656 | the merge loop gives exactly the merged dictionary |
| NewEventsDict.NewEventsToDict.SaveDataToFile | flares_utils/new_events_utils.py:550-671 | the dictionary is rewritten once, after the loop, to what `save_data` gives, so a failure leaves the stored file untouched (also FlareBot/bot/new_events_utils.py:332-403) |
| FollowupCsv.MarkDate | FlareBot/bot/main_utils.py:21 | marking a date sets `over_200_days` on exactly the rows with that date and changes nothing else |
| FollowupCsv.MarkFrom | FlareBot/bot/main_utils.py:17-21 | the marking loop keeps the number of rows |
| FollowupCsv.Dates | FlareBot/bot/main_utils.py:17-18 | the loop reads each row's date, in order |
| FollowupCsv.FlareFollowup.Open | FlareBot/bot/main_utils.py:5-11 | reading the table raises OSError, as `FileNotFoundError`, exactly when the path is missing; otherwise a new follow-up object holds the table read from that path |
| FollowupCsv.MarkFromKeeps | FlareBot/bot/main_utils.py:17-21 | marking keeps every row's other fields, never clears a flag, and sets one only on a row whose date is among those read and more than 200 days old |
| FollowupCsv.MarkFromMarks | FlareBot/bot/main_utils.py:17-21 | when no date fails to parse, every row whose date was read and is more than 200 days old is flagged |
| FollowupCsv.MarkedRow | FlareBot/bot/main_utils.py:17-21 | with the rows' own dates, each row ends flagged exactly when its date is past the window, unless it already was |
| FollowupCsv.CompletedRowsExactly | FlareBot/bot/main_utils.py:13-22 | when every date parses, each row ends flagged exactly when it already was or its date is more than 200 days old, so rows sharing a date are flagged together, and nothing else changes |
| FollowupCsv.RequestsFrom | FlareBot/bot/main_utils.py:31-40 | the request pass can only fail with ValueError, from the first row's date |
| FollowupCsv.Active | FlareBot/bot/main_utils.py:32-33 | the events considered are exactly those of rows not past the window |
| FollowupCsv.ScheduleFromFirstRow | FlareBot/bot/main_utils.py:31-40 | every event not past the window gets the same schedule from the first row's date: all are first-update requests exactly on day 9, all update requests exactly on days 20, 30, 50 and 100, and the two lists are never both filled |
| FollowupCsv.EditRow | FlareBot/bot/main_utils.py:49 | an edit changes only a row whose event id matches, and never its id or date |
| FollowupCsv.Edited | FlareBot/bot/main_utils.py:49 | the rows of the named event get the new value in the named column, and every other row and column is unchanged |
| FollowupCsv.FlareFollowup.CheckCompletedEvents | FlareBot/bot/main_utils.py:13-22 | the loop leaves the rows the marking pass gives; the table is written to the fixed path only when every date parses |
| FollowupCsv.FlareFollowup.CheckPhotometryRequest | FlareBot/bot/main_utils.py:24-43 | an empty table gives three empty lists; otherwise the loop returns the first-update, update and pending lists of the request pass, raising exactly when that pass does; it changes nothing |
| FollowupCsv.FlareFollowup.EditCsv | FlareBot/bot/main_utils.py:45-50 | the rows become the edited rows and are written to bot/data/flare_pipeline.csv whatever path was read |
| Crossmatch.ToCrossmatch | flares_utils/new_events_utils.py:887-896 | with `crossmatch_new_only` the events redone are exactly the given ones not yet in the crossmatch dictionary, in order; without it, all the given events |
| Crossmatch.Names | flares_utils/new_events_utils.py:889-891 | the names of the events, in order |
| Crossmatch.Queried | flares_utils/new_events_utils.py:938-942 | one Quaia answer per event redone, in order |
| Crossmatch.Unqueried | flares_utils/new_events_utils.py:928 | a catalog not asked for gives one None per event redone (also lines 949) |
| Crossmatch.CatnorthAsWritten | flares_utils/new_events_utils.py:912-921 | as written, the k-th CatNorth answer is sorted by the k-th skymap of all the events given, not of the events redone |
| Crossmatch.CatnorthSorted | flares_utils/new_events_utils.py:912-921 | each CatNorth answer is sorted by its own event's skymap |
| Crossmatch.CatnorthMisaligned | flares_utils/new_events_utils.py:918-921 | when an event earlier in the list is already crossmatched, the next event's AGN are sorted by the skipped event's skymap, which differs from sorting by its own |
| Crossmatch.EntriesFromValues | flares_utils/new_events_utils.py:964-975 | the merged dictionary holds the stored keys and the new names; a name takes its last value, and every other key keeps its stored value |
| Crossmatch.Overlay | flares_utils/new_events_utils.py:968-975 | the merge loop writes every new entry over the stored dictionary, as the entry map describes |
| Crossmatch.KeepExisting | FlareBot/bot/new_events_utils.py:536-541 | the FlareBot merge keeps every stored crossmatch and adds only names not stored yet |
| Crossmatch.CountOf | flares_utils/new_events_utils.py:981-982 | an unqueried or empty answer has no count |
| Crossmatch.StatsOf | flares_utils/new_events_utils.py:981-986 | one pair of counts per event redone, from its CatNorth and Quaia answers |
| Crossmatch.Lengths | FlareBot/bot/new_events_utils.py:545 | the FlareBot counts are the lengths of the two answers |
| Crossmatch.WithStats | flares_utils/new_events_utils.py:992-997 | the events dictionary keeps its events and only those counted get the counts as their crossmatch section |
| Crossmatch.Answers | FlareBot/bot/new_events_utils.py:527-530 | every FlareBot answer is present |
| Crossmatch.Raw | FlareBot/bot/new_events_utils.py:527-530 | one catalog answer per event given, in order |
| Crossmatch.CurrentRun | flares_utils/new_events_utils.py:866-1005 | a missing crossmatch file leaves its dictionary unbound and raises NameError (also lines 730-738); otherwise the run returns None exactly when no event is redone, and else one CatNorth and one Quaia answer per event redone, in order: the CatNorth answer sorted by the event's own skymap (the corrected `CatnorthSorted`) and the Quaia answer as queried, or None for a catalog not asked for; testing, a failure or nothing to crossmatch leaves both files as they were |
| Crossmatch.SelectionExact | flares_utils/new_events_utils.py:887-894 | with `crossmatch_new_only`, a name is redone exactly when it is given and not crossmatched yet |
| Crossmatch.InNames | flares_utils/new_events_utils.py:889-891 | a name is listed exactly when some event carries it |
| Crossmatch.CurrentRunUpdates | flares_utils/new_events_utils.py:952-1005 | what is redone replaces its stored crossmatch and nothing else in the crossmatch dictionary changes; a redone name stores the CatNorth answer of its last position, sorted by that event's own skymap (the corrected `CatnorthSorted`), and a stored event of that name gets that answer's CatNorth and Quaia counts, None for an unqueried or empty answer; the events dictionary keeps its events and changes only the crossmatch sections of the events redone |
| Crossmatch.FlareBotRun | FlareBot/bot/new_events_utils.py:510-559 | testing writes nothing; a missing crossmatch file raises OSError; otherwise the run returns one CatNorth and one Quaia answer per event given, in order |
| Crossmatch.FlareBotKeepsStored | FlareBot/bot/new_events_utils.py:531-554 | the FlareBot run never replaces a stored crossmatch and stores the CatNorth answer of every new event given; every known event given gets the lengths of its two answers as its crossmatch section, and no other event changes |
| Crossmatch.KowalskiCrossmatch.GetCrossmatches | flares_utils/new_events_utils.py:866-1005 | the merge loop leaves the files and returns the answers the current run describes, with the corrected CatNorth sort |
| Crossmatch.KowalskiCrossmatch.GetCrossmatchesFlareBot | FlareBot/bot/new_events_utils.py:510-559 | the merge loop leaves the files and returns the answers the FlareBot run describes, the stored values being those `FlareBotKeepsStored` states |

## Left out

- Network and transport: the Kafka consumer and its commit, HTTP calls to Fritz, GraceDB, Kowalski and ZFPS, SMTP email, Slack and log writes, and git pushes. Their answers are inputs of the model: polls, plan listings, queue names, crossmatch catalogs and trigger results. The emails and requests a decision sends are modelled as the list of messages it produces, not as the messages' delivery.
- `check_num_pending_zfps`: it is an HTTP count, so the pending count the service reports is an input of the run.
- Polling loops with `time.sleep` and `time.time`: they become a sequence of attempts, and the first answer inside the window wins. Wall-clock time is an input.
- astropy and astroplan: `Time`, `check_before_sunset` (sun position at the site), sunrise and sunset, MJD conversion, healpix areas, `get_a`, `sort_coords_by_prob`, `z_at_value`, the MLP mass model and the chirp-mass file. Each is foreign numerics, so its result is an input: a boolean, an instant, a number or an ordering.
- Floating point: probabilities, times and coordinates are `real`, and they are used only in comparisons and sums. `round` is modelled as rounding half to even on exact reals, so binary representation error is not modelled. Python's float `repr` and `replace_scientific_notation` are not modelled.
- `strptime` also accepts one-digit fields. The model's readers accept only the zero-padded forms, which are the forms the bots write.
- Cadence.Examined: a row is examined when its `valid` cell is the text "True". The bots write that cell only as a bool, so pandas reads the column as bool, and as written `row.valid != 'True'` (trigger_utils/cadence_utils.py:16 and 111, TriggerBot/bot/cadencefunctions.py:16 and 87) holds on every row. No row is then examined, and the pending check and cadence check return no entries. The text comparison, which is evidently what these lines intend, is what `Cadence.CheckPending`, `CadencePass.RowFollowups`, `CadencePass.TriggerOnCadence`, `CadenceBot.BotRowEntry` and `CadenceBot.BotCheckPending` and the passes built on them describe.
- pandas: dtype inference is not modelled, and cells are modelled as texts or NaN. `df.append` in `append_row_csv` and the merges, truncation and 24-hour matching in `SavePhotometry` are not modelled.
- CSV, JSON, pickle and gzip file formats: the trigger log is modelled as a sequence of rows, the pipeline record and the events dictionary as maps, and the backlog directory as a map from file name to content. The VOEvent is modelled as the fields `get_params` reads (`GcnParams.RawAlert`), so an alert without the `voe:VOEvent`, `What` or `Param` keys cannot be expressed, and the `MyException` that trigger_utils/trigger_utils.py:53-60 raises for it is not part of `GcnParams.GetParams`.
- Mismatched call sites: trigger.py:152-153 against trigger_utils/trigger_utils.py:169; cadence.py:52-54 against trigger_utils/cadence_utils.py:49; trigger_utils/cadence_utils.py:72 against trigger_utils/trigger_utils.py:593-600; flares.py:6, which imports a name that flares_utils/new_events_utils.py does not define; flares_utils/new_events_utils.py:421-429 against the `SkymapCoverage` constructor; TriggerBot/bot/cadence.py:22, 63 and 71, which call `parse_pending_observation` with four arguments where it takes five and pass `append_string` to an `update_trigger_log` that has no such parameter; and TriggerBot/bot/cadence.py:26, which calls `trigger_on_cadence()` with no argument where TriggerBot/bot/cadencefunctions.py:80 takes `df`. Each function is modelled on its own terms, and the crashes these calls would raise are not modelled.
- Flare identification (part 3 of `flares.py`), `flares_utils/flares_utils.py` and the flare simulations: these are floating-point statistics.
- Plotting, Markdown publishing and the command-line drivers: they have no decision logic of their own.
- ZfpsSubmit.Submit: only requests given as a list of batches are modelled. The flat-list branch at flares_utils/photometry_utils.py:378-385, which posts one batch, is not, because every caller in the core passes batches.
- Admission.LoggedRow: the pending cell is the corrected "(id,start)" text of the first Findings row, not the `str((plan_id, start))` text trigger.py:345-356 writes. With the cell as written, the cadence check raises instead (`Cadence.TuplePendingStopsCheck`).
- Admission.LoggedRowTriggerBot: the pending cell is the corrected "(id,start)" text, not the `str(tuple)` text TriggerBot/bot/main.py:204-207 writes. With the cell as written, the bot's check raises (`CadenceBot.BotTuplePendingStops`).
- Cadence.LoggedPlanClassified: it is about a row pending the "(id,start)" text that `LoggedRow` writes, so it describes the corrected log, not the one trigger.py produces.
- CadencePass.LoggedEntries: as for `Cadence.LoggedPlanClassified`. The same holds for `ExpiredPlanGivenUp`, `ObservedPlanSucceeds` and `UnobservedPlanRetried`.
- CadenceBot.BotLoggedPlanClassified: it is about a row pending the "(id,start)" text, not the `str(tuple)` cell TriggerBot/bot/main.py:204-207 writes.
- CadenceBot.BotDueEntries: as for `BotLoggedPlanClassified`. The same holds for `BotObservedPlanSettled`.
- PhotoQueue.QueueDir.QueuePhotometry: it writes under the intended name of the second Findings row (`Queue`). As written, flares_utils/photometry_utils.py:265-278 always writes `{graceid}.json` and so overwrites an earlier slice (`QueueAsWritten`, `SecondSliceOverwrites`).
- PhotoQueue.QueueDir.QueueBacklog: it queues with `QueuePhotometry`'s intended names. It keeps every slice whose clock reading differs from the earlier ones (`QueueAllStores`), and keeps the names already waiting (`QueueAllKeeps`). The clock is read to the second (flares_utils/photometry_utils.py:267) and the loop at lines 243-252 queues the slices back to back, so two slices queued within the same second share a name and the later one replaces the earlier even with the intended names. The per-index name `{graceid}_{i}` built at line 247 is never used and is not modelled.
- PhotoQueue.QueueAllKeeps: it shows only that the names already waiting survive, not what they hold. Contents are kept only when the clock readings all differ and name no waiting file (`QueueAllStores`). As written, every file is kept under its name, but `{graceid}.json` ends up holding only the last slice.
- FlareRun.Backlogged: it queues under the intended names, as `QueueBacklog` does.
- FlareRun.Overflowed: it queues under the intended name, as `QueuePhotometry` does. As written, the batches overwrite `{graceid}.json`.
- Crossmatch.CurrentRun: the CatNorth answers are sorted by each redone event's own skymap (`CatnorthSorted`, the third Findings row). They are not paired with the skymaps of all the inputs as flares_utils/new_events_utils.py:918-921 pairs them (`CatnorthAsWritten`, `CatnorthMisaligned`).
- Crossmatch.KowalskiCrossmatch.GetCrossmatches: it sorts as `CurrentRun` does.
- Crossmatch.CurrentRunUpdates: the CatNorth answers it states are stored and counted are `CurrentRun`'s corrected own-skymap sort (`CatnorthSorted`). As written, flares_utils/new_events_utils.py:918-921 stores answers sorted by a skipped earlier event's skymap (`CatnorthMisaligned`).
- NewEventsDict.Table: the number formatting of the gw columns is not modelled. The columns are modelled as values.

## Findings

| source | as written | input that shows it | evidently intended | confidence | as-written member | corrected member |
|---|---|---|---|---|---|---|
| trigger.py:345-356 and trigger_utils/cadence_utils.py:22-32 | the pending cell is written as `str((plan_id, start))`, which gives `(12, '2024-01-01T00:00:00')`, and read back by stripping parentheses and splitting on `,` | plan 12 with start `2024-01-01T00:00:00`: the start reads back as ` '2024-01-01T00:00:00'`, which no timestamp reader accepts | write `({id},{start})`, as cadence.py:135-142 does, so the cell reads back as the plans written | not executed | TriggerLog.TupleStartUnreadable | TriggerLog.PendingRoundTrip |
| flares_utils/photometry_utils.py:265-278 | `queue_photometry` builds a timestamped file name but writes to `{graceid}.json` | two backlog slices queued for one event | each slice goes to its own timestamped file, so slices queued at different seconds are all kept (also `QueueAllStores`); slices queued within the same second still share a name | not executed | PhotoQueue.SecondSliceOverwrites | PhotoQueue.QueuedSlicesKept |
| flares_utils/new_events_utils.py:918-921 | the k-th CatNorth answer is sorted by the k-th skymap of all the events given, although only the events not yet crossmatched were queried | events [A, B] with A already crossmatched: B's AGN are sorted by A's skymap | each answer is sorted by its own event's skymap | not executed | Crossmatch.CatnorthMisaligned | Crossmatch.CatnorthSorted |
