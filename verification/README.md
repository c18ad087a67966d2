# Knorten, verified

Knorten gives teams an Airflow of their own. It keeps a queue of events in a database table, one
leader process dispatches them to workers, and a worker changes clusters, cloud projects and Helm
releases, and may queue further events. This project models the parts of that with the most state
and proves what they keep. `dafny verify dfyconfig.toml` checks it all.

**The queue** (`Events`, `Kinds`, `Decimal`, `Dispatcher`, `Handler`, `Runs`). The dispatcher is a state
machine: a step is one database statement or one channel operation, so a run is any interleaving of
the dispatch loop, its workers, API calls and the administrator. `Handler` has the loop and the
worker as methods of a class, each proved to take exactly those steps. What the code relies on and
does not enforce is a regime of promises on steps in `Runs`. On these stand mutual exclusion and
first-in-first-out per owner and resource (`Exclusion`), slot conservation (`Slots`) and how slots are lost
(`LostSlots`), crash recovery (`Recovery`), the retry bound (`Accounting`), the bound on all attempts that
one request causes (`Descendants`, with `Sums`), termination (`Quiescence`), what one attempt leaves
(`Attempts`), that nothing is completed before it has registered its follow-up (`FollowUps`), and runs
that go wrong when a promise is broken (`BadRuns`).

**The values** (`Trees`, `Batches`, `ValueMaps`, `Keys`, `Values`, `Enrichers`, `Precedence`). Helm
values are nested maps in the heap that are merged and set in place; each method is tied to an
operation on immutable trees, and the lemmas say what a lookup finds afterwards, layer by layer.

**The global edit** (`GlobalStore`, `GlobalEdit`, `Pairing`, `Orders`, `Clashes`, `Patch`). A form is
compared with the store in whatever order its fields come, confirmed, and written. `EditedRollout` follows
what was entered to Helm.

**The team values** (`Structs`, `TeamStore`, `Sync`, `SyncHistory`, `SyncContents`). An append-only store, and what
any history of syncs and deletions leaves in it. `Rollout` joins this with the values: what a team
last asked for is what Helm gets.

**The environment** (`Env`, `Leadership`). Helm calls swap the process environment and put it back.
`Leadership` joins this with the queue: several processes on one table, each with its environment, and
which of them act.

What the proofs found, where the code does not do what one might expect:

- Losing leadership resets the events of workers that are still at work, so that their work is done
  a second time when the process leads again (`BadRuns.LeadershipLossDoubles`). The administrator's
  reset of a processing event, a fetch that comes before a mark and one after a refused mark do the
  same.
- A reset that fails is never tried again, and what was processing blocks its class until a later
  change of leadership with a good reset, or until the administrator rescues it
  (`Recovery.FailedResetStrands`).
- Who leads is read from an environment that every Helm call swaps out. A process deposed during a call, or
  after two calls have crossed, goes on taking itself for the leader (`Leadership.PathStaysGone`) and takes up
  the same events as the new one (`Leadership.DeposedGoesOn`). And a
  deposed process that notices late resets the events that the new leader is working on, even when the
  leadership was handed over at rest (`Leadership.LateNoticeDoubles`).
- An event with an unknown type or an unreadable deadline is never marked, so it is selected again
  at every tick and costs a slot each time: one such row blocks its class until the administrator
  helps, and after five ticks everything, until a restart (`LostSlots.FiveTicksBlock`). Slots can be lost
  exactly when the table has such a row (`LostSlots.SlotLostExactly`), and the program's own registrations
  never make one (`Slots.NoSlotLost`). If the type has no colon, the fetch panics instead as soon as any
  other event is upcoming or processing, restart after restart (`LostSlots.JammedRun`).
- A payload that does not decode is marked failed, and then counted and tried again all the same
  (`Attempts.HandledRow`).
- If increments of the retry count are refused, there is no bound on attempts
  (`BadRuns.UncountedRetriesUnbounded`). With bookkeeping accepted, one team update causes at most
  2800 attempts; with completions accepted too, at most 70, since a sync then registers its rollout
  only once.
- Batching values and merging them differs from setting them exactly when a later key goes below an
  earlier one that nothing covers again (`Batches.BatchedExactly`).
- A new global value that is the name of another value field is mistaken for a placeholder, and new names
  can clash with each other and with other fields: the order of a Go map then decides the result.
  `Clashes.OrderExactly` says exactly when.
- A stored key whose name starts with `key` or `value` reads as a field of a new pair. It cannot be
  edited under its name, and merely saving the page adds global values that nobody asked for: with
  `keyring` stored as `abc`, a value `abc` that holds `valuering` (`Patch.LoneKeyAdds`,
  `Patch.UntouchedExactly`). A change of a key named `action-trigger-resync` is dropped. A tick of the
  encryption box without a new value is no change.
- Every team that has a repo stored can be resynced, whatever its syncs and their failures have been: the
  form puts `main` for a blank branch (`SyncHistory.ResyncAlways`). `syncAirflow` itself does not ask for a
  branch with a repo, and a team without one could not be (`SyncHistory.ResyncExactly`).
- Concurrent Helm calls can leave each other's environment behind (`Env.OverlapLeaks`), and a call
  whose variables are not valid leaves the environment cleared (`Env.EstablishEnv`).

## Model

| member | source | states |
|---|---|---|
| Events.TypeNamesParse | pkg/database/events.go:16-29 | every event type name finds the worker of its own type and contains the colon that the class comparison splits at |
| Kinds.TypeNamesAre | pkg/database/events.go:16-29 | the twelve names, literally |
| Kinds.GroupExactly | pkg/database/events.go:198-199 | each type is in the group of its resource and in no other: team, airflow, usergsm, helm, airflowscheduler |
| Kinds.ClassesExactly | pkg/database/events.go:196-206 | two registered events exclude each other if and only if they have one owner and both are among create, update and delete of a team, or of an Airflow, or create and delete of a user, or rollout, rollback and uninstall, or restarts of the scheduler |
| Events.ResourceOf | pkg/database/events.go:198-199 | the second piece of a type name split at the colon is its resource, whatever follows a second colon |
| Events.EventRepo.EventCreate | pkg/database/gensql/events.sql.go:14-21 | a new event is appended with status new and no retries; nothing else changes |
| Events.EventRepo.EventSetStatus | pkg/database/gensql/events.sql.go:126-130 | only the status of that event changes |
| Events.EventRepo.EventIncrementRetryCount | pkg/database/gensql/events.sql.go:63-67 | only the retry count of that event changes, by one |
| Events.EventRepo.EventsReset | pkg/database/gensql/events.sql.go:267-271 | every processing event becomes pending and no other event changes (with ResetRowsAt) |
| Dispatcher.ResetRowsAt | pkg/database/gensql/events.sql.go:267-271 | row by row: a reset turns processing into pending, leaves every other status, every retry count and every identity alone |
| Events.EventRepo.EventsUpcomingGet | pkg/database/gensql/events.sql.go:278-285 | the loop returns the new, pending and deadline_reached rows, oldest first |
| Events.UpcomingRowsExact | pkg/database/gensql/events.sql.go:278-285 | an event is in the upcoming list if and only if it is in the table and new, pending or deadline_reached |
| Events.EventRepo.EventsProcessingGet | pkg/database/gensql/events.sql.go:227-232 | the loop returns the processing rows, newest first |
| Events.ProcessingRowsExact | pkg/database/gensql/events.sql.go:227-232 | an event is in the processing list if and only if it is in the table and processing |
| Events.ProcessingRowsDescend | pkg/database/gensql/events.sql.go:227-232 | the processing list is newest first |
| Events.ContainsEvent | pkg/database/events.go:196-206 | a panic exactly when the search comes to a type without a colon, and otherwise whether some listed event has the same owner and resource |
| Events.IsEventDispatchable | pkg/database/events.go:182-194 | a panic exactly when one of its two searches panics, and otherwise whether neither list has an event of the same owner and resource |
| Events.EventRepo.DispatchableEventsGet | pkg/database/events.go:161-180 | for every table: a panic exactly when some candidate's test panics, and otherwise the specified choice |
| Events.ColonsCompare | pkg/database/events.go:196-199 | with a colon in every type there is no panic |
| Events.ColonFreePanics | pkg/database/events.go:182-199 | a row without a colon that is up for selection makes the fetch panic if and only if any other row is up for selection or processing |
| Events.DispatchableExact | pkg/database/events.go:172-177 | the choice, exactly: candidates with nothing of their class processing and no earlier candidate of their class |
| Events.FetchExact | pkg/database/events.go:161-206 | an event is handed to the dispatch loop if and only if it is upcoming, not held back by a pause, nothing of its class is processing and no older event of its class is upcoming, paused or not |
| Events.FetchOnePerClass | pkg/database/events.go:172-177 | one fetch is in order of age and never holds two events of one owner and resource |
| Events.FetchNotEmpty | pkg/database/events.go:161-180 | if something is upcoming and nothing is processing, a fetch without pauses finds something |
| Decimal.DurationRoundTrip | pkg/database/events.go:68-73 | a deadline of whole minutes below an hour prints as a duration that parses back to the same time |
| Decimal.UnitsAre | pkg/events/dispatcher.go:277-281 | a whole number of hours, minutes or seconds reads as so many seconds |
| Handler.ActiveExcludePeriodForTeam | pkg/maintenance/maintenance.go:53-62 | a period is returned exactly when the team has one that contains the present strictly, and the one returned does |
| Handler.OmitAirflowEventsIfUpgradesPaused | pkg/events/dispatcher.go:329-347 | the events that are left out are exactly those of the four named types whose owner has a period strictly around the present; the rest stays in order |
| Kinds.PausableExactly | pkg/events/dispatcher.go:329-347 | a pause holds back create:airflow, update:airflow, rolloutAirflow:helm and rollbackAirflow:helm and no other text |
| Kinds.FetchUnderPauses | pkg/events/dispatcher.go:317-347 | of what was chosen a fetch under pauses has all but those four types of the paused owners |
| Handler.EventHandler.constructor | pkg/events/dispatcher.go:231-233 | a handler starts as no leader, with an empty queue and all slots free |
| Handler.EventHandler.IsNewLeader | pkg/events/dispatcher.go:349-363 | takes the election step: events are reset on any change of leadership, and the new status is kept even when the reset fails |
| Handler.EventHandler.Tick | pkg/events/dispatcher.go:249-262 | one tick is an election step and then, for a leader without error, a fetch; it panics exactly when the choice does |
| Handler.EventHandler.DispatchNextEvent | pkg/events/dispatcher.go:264-285 | one turn of the loop takes a slot, and starts a worker or loses the slot to an unreadable type or deadline |
| Handler.EventHandler.SetStatus | pkg/database/events.go:146-151 | one status write is one act of the worker |
| Handler.EventHandler.Perform | pkg/events/dispatcher.go:103-177 | the action of an event ends in at most one registration, with the outcomes its type allows |
| Handler.EventHandler.ProcessWork | pkg/events/dispatcher.go:86-180 | decode, mark, act, complete: what is written is exactly the attempt's acts, and an error is returned exactly when the attempt failed |
| Handler.EventHandler.MarkUndecodable | pkg/events/dispatcher.go:92-97 | a payload that does not decode writes failed and nothing else |
| Handler.EventHandler.MarkProcessing | pkg/events/dispatcher.go:99-101 | marking writes processing and nothing else |
| Handler.EventHandler.PerformAndComplete | pkg/events/dispatcher.go:103-179 | the same from the mark on |
| Handler.EventHandler.CountRetry | pkg/events/dispatcher.go:296-298 | one increment is one act, and a refused one changes nothing |
| Handler.EventHandler.KeepBooks | pkg/events/dispatcher.go:288-310 | after a failed attempt: failed beyond five retries, otherwise a count and then pending or deadline_reached |
| Handler.EventHandler.HandleEvent | pkg/events/dispatcher.go:286-312 | the body of a worker is its attempt, its bookkeeping and the return of its slot, as steps of the machine |
| Handler.EventHandler.ReleaseSlot | pkg/events/dispatcher.go:312 | the slot is given back in one step |
| Dispatcher.WfStep | pkg/events/dispatcher.go:230-317 | every step of the dispatcher, its workers, the API and the administrator keeps queue and workers referring to rows of the table |
| Dispatcher.ApplyExtends | pkg/database/gensql/events.sql.go:14-21 | no step removes a row or changes what identifies it |
| Runs.RunActMoves | pkg/events/dispatcher.go:276-313 | a worker's step moves that worker only, and never back to an earlier phase |
| Runs.RunActRows | pkg/events/dispatcher.go:276-313 | a worker's step writes the row of its own event and appends at most one new row |
| Runs.WfRun | pkg/database/gensql/events.sql.go:14-21 | over every run, with nothing promised, rows are only appended and keep their identity, and what is selected or at work goes on referring to its row |
| Exclusion.SafeStep | pkg/events/dispatcher.go:264-313 | every orderly step keeps workers, queue and processing rows of one class apart |
| Exclusion.SafeRun | pkg/events/dispatcher.go:230-317 | the same over whole runs |
| Exclusion.MutualExclusion | pkg/events/dispatcher.go:99-179 | from any table and over every orderly run, no two workers act for the same owner and resource |
| Exclusion.HelmExclusion | pkg/database/events.go:25-27 | in particular no two of rollout, rollback and uninstall of one owner are ever at work together |
| Exclusion.InOrderStep | pkg/database/events.go:161-206 | every step keeps: what is selected or handled has no unfinished older event of its class |
| Exclusion.FirstInFirstOut | pkg/events/dispatcher.go:319-347 | over every run that keeps the order's promises, while a worker acts on an event every older event of its owner and resource has ended, through retries, deadlines and pauses |
| Slots.SlotsStep | pkg/events/dispatcher.go:264-313 | every step keeps: tokens are live workers plus lost slots, at most five |
| Slots.SlotConservation | pkg/events/dispatcher.go:231-313 | so over every run, with nothing promised by anyone |
| Slots.RunnableStep | pkg/database/events.go:56-144 | every step keeps all rows readable when they were registered by the program |
| Slots.NoSlotLost | pkg/database/events.go:56-144 | over every run from registered events no slot is lost |
| Slots.LostSlotsBlock | pkg/events/dispatcher.go:266-281 | with all five slots lost no event is dispatched again before a restart |
| LostSlots.BlockingStep | pkg/events/dispatcher.go:264-281 | a row that cannot be read and comes first in its class goes on blocking it through every step but the administrator's, restarts included, and every fetch that does not pause it and every dispatch of it is accounted for in lost slots |
| LostSlots.EveryFetchCosts | pkg/events/dispatcher.go:264-281 | over every undisturbed run, each fetch costs another slot: an unread row is never marked, so it is selected again at every tick |
| LostSlots.FiveTicksBlock | pkg/events/dispatcher.go:264-281 | after five ticks of any such run all slots are lost, and no event of any kind is dispatched again before a restart |
| LostSlots.OneRowIsBlocking | pkg/events/dispatcher.go:264-281 | a single unreadable row in the table is enough for that, with or without a colon in its type |
| LostSlots.OneRowUsesUp | pkg/events/dispatcher.go:264-281 | its ticks take the slots one by one, up to all five |
| LostSlots.SlotLostExactly | pkg/events/dispatcher.go:266-281 | from a state without lost slots, some run loses one if and only if some row has a type or a deadline that cannot be read, whatever the other types are |
| LostSlots.JammedRun | pkg/database/events.go:196-206 | with a row without a colon up for selection, another up for selection or left processing, and nobody at work, every fetch panics and nothing is dispatched, restart after restart, before the administrator helps |
| Recovery.AttendedRun | pkg/events/dispatcher.go:286-312 | processing implies a live worker of this process, kept by every run in which last writes are accepted |
| Recovery.CrashRecovery | pkg/events/dispatcher.go:349-363 | after a crash at any point and a takeover whose reset succeeds, every processing event has a live worker for ever after, and none is processing once the workers are done |
| Recovery.FailedResetStrands | pkg/events/dispatcher.go:355-359 | a failed reset is never tried again: what was processing stays so in every run without rescue, and its class is never selected |
| Accounting.FreshIsTallied | pkg/database/gensql/events.sql.go:14-21 | a table nobody has attempted anything from meets the tally of attempts and retries |
| Accounting.TalliedStep | pkg/events/dispatcher.go:286-311 | every accountable step keeps the tally |
| Accounting.RetryBound | pkg/events/dispatcher.go:286-311 | the retry count never falls, is at most six, equals the attempts of an event that waits for another; seven attempts at most, and failed only after all seven |
| Descendants.CostsAre | pkg/events/dispatcher.go:103-177 | the most attempts that a request of each of the twelve types can cause, 2800 for a team update, or 70 where completions are accepted |
| Descendants.SpawnedOnceStep | pkg/chart/chart.go:50-76 | when completions are accepted, a type that registers on success registers once |
| Descendants.AccountedStep | pkg/events/dispatcher.go:286-311 | every step keeps that each family's attempts are covered by its credit |
| Descendants.RequestBound | pkg/chart/chart.go:50-76 | one request of any type causes at most its cost in attempts, all descendants included, however the run goes and whatever else happens in it |
| Descendants.UpdateTeamBound | pkg/team/team.go:101-116 | for a team update: at most 2800, or 70 when completions are accepted |
| Quiescence.FreshIsGood | pkg/events/dispatcher.go:230-317 | a leader with a table of unattempted registered events and nothing going on is a good state |
| Quiescence.GoodStep | pkg/events/dispatcher.go:230-317 | every step without outside input keeps the state good |
| Quiescence.EnergyDrops | pkg/events/dispatcher.go:286-311 | every such step strictly lowers the measure |
| Quiescence.Progress | pkg/events/dispatcher.go:264-313 | as long as some event has not ended, some such step can be taken |
| Quiescence.RunsAreFinite | pkg/events/dispatcher.go:286-311 | no run without outside input is longer than the measure it starts with |
| Quiescence.RestMeansEnded | pkg/events/dispatcher.go:286-311 | a run that cannot go on has ended every event, and none failed before its seventh attempt |
| Quiescence.Quiesces | pkg/events/dispatcher.go:286-311 | and from every good state such a run exists |
| Quiescence.RequestsEnd | pkg/events/dispatcher.go:230-317 | whatever is requested, of any types and for any owners: a leader left to itself can bring all of it to an end, and a run that cannot go on has done so |
| FollowUps.NewRowIs | pkg/database/events.go:82-144 | the row of every type, literally: its name, its deadline, new and without retries |
| FollowUps.FromOutside | pkg/api/admin.go:659-676 | what a registration appends, and that the administrator may set new and manual_failed only |
| FollowUps.FollowUp | pkg/chart/chart.go:50-98 | what an action registers, literally: update:team an update:airflow, delete:team a delete:airflow, create:airflow and update:airflow a rollout, delete:airflow an uninstall, all on success, and a rollout a rollback on failure; for the same owner, of the same request, new, with its deadline |
| FollowUps.NoFollowUp | pkg/chart/chart.go:50-76 | a success without a registration is never one of delete:team, create:airflow, update:airflow or delete:airflow |
| FollowUps.FollowedStep | pkg/chart/chart.go:50-76 | what is completed, or done and about to be, has its follow-up: kept by every step of any kind |
| FollowUps.CompletedHasFollowUp | pkg/chart/chart.go:50-76 | over every run, with nothing promised: a completed deletion of a team has a deletion of its Airflow of the same owner and request, a completed deletion of an Airflow an uninstall, and a completed creation or update a rollout |
| FollowUps.RestHasFollowUps | pkg/chart/chart.go:64-76 | and when a leader left alone has come to rest these follow-ups have ended too |
| Attempts.HandledRow | pkg/events/dispatcher.go:86-312 | the row after an attempt and its bookkeeping: completed without an error; otherwise failed if it was fetched with more than five retries, else counted and deadline_reached or pending; with what the database refused left out |
| Attempts.FiveAtOnce | pkg/events/dispatcher.go:231-266 | five workers can be alive at once and a sixth event waits |
| BadRuns.RegisteredIsRequest | pkg/database/events.go:56-144 | every registered event is such a request as the bad runs start from |
| BadRuns.LeadershipLossDoubles | pkg/events/dispatcher.go:355-360 | losing and regaining leadership while a worker is at work puts two workers on one event, for every request |
| BadRuns.AdminResetDoubles | pkg/api/admin.go:659-676 | so does setting a processing event back to new |
| BadRuns.EarlyFetchDoubles | pkg/events/dispatcher.go:99-101 | so does a fetch before the dispatched event is marked |
| BadRuns.RefusedMarkDoubles | pkg/events/dispatcher.go:99-101 | and so does a fetch while a worker whose mark was refused still keeps its books |
| BadRuns.UncountedAttempt | pkg/events/dispatcher.go:296-298 | a failed attempt whose increment is refused leaves the event as ready as before |
| BadRuns.UncountedRetriesUnbounded | pkg/events/dispatcher.go:296-298 | without stored increments any number of attempts at one event is possible |
| Trees.SetThenBelow | pkg/helm/application.go:216-227 | after setting a path, any lookup at or below it finds the new value's |
| Trees.SetThenAbove | pkg/helm/application.go:216-227 | every step of the path is a map afterwards, whatever was there |
| Trees.SetThenApart | pkg/helm/application.go:216-227 | every path that neither contains it nor is contained keeps its value |
| Trees.MergeThenLookup | pkg/helm/application.go:165-177 | at every path: custom's where custom has a scalar or list on the path, the merge of both maps where custom has a map, and base's where custom says nothing |
| Trees.MergeEmpty | pkg/helm/application.go:168-172 | merging into an empty map gives custom itself |
| Trees.MergeOfSet | pkg/helm/application.go:165-177 | setting in the batch and merging is merging and setting, when no scalar of the batch is above the path |
| Trees.BatchedEqualsDirect | pkg/helm/loader.go:106-126 | a batch in which nothing is set below an earlier scalar gives the same tree merged or set straight onto any base |
| Batches.DirectIsMerge | pkg/helm/loader.go:106-126 | for every batch of scalars: setting straight onto a base is merging the batch into the base less what was at the paths |
| Batches.BatchedByLeaves | pkg/helm/loader.go:106-126 | batched is direct on every base if and only if the path of every setting still has a scalar of the batch on it |
| Batches.ScalarStands | pkg/helm/loader.go:106-124 | the batch has a scalar at a path exactly when some setting put it there and none later is above or below it |
| Batches.BatchedExactly | pkg/helm/loader.go:106-126 | batched is direct on every base if and only if, whenever a setting goes below an earlier one, a later one is at or above that earlier one again |
| Trees.SetsCommute | pkg/helm/application.go:216-227 | settings at incomparable paths commute |
| Trees.OrderOfSettings | pkg/helm/application.go:216-227 | every permutation of settings at pairwise incomparable paths gives the same tree |
| Trees.SetAllReads | pkg/helm/application.go:216-227 | a setting that no later one touches is read back at its path |
| Trees.MergeReads | pkg/helm/loader.go:106-126 | wherever a merged batch has a scalar, it is read, whatever the base had there or above |
| Trees.MergeApart | pkg/helm/loader.go:106-126 | a path no setting of the batch touches keeps what the base had |
| ValueMaps.ValueMap.constructor | pkg/helm/loader.go:106-106 | a new map is empty and owns only itself |
| ValueMaps.ValueMap.Put | pkg/helm/application.go:226-226 | the map's tree changes at that key only |
| ValueMaps.ValueMap.Attach | pkg/helm/application.go:220-220 | a map stored under a key is taken over, and the tree changes at that key only |
| ValueMaps.ValueMap.Ensure | pkg/helm/application.go:219-221 | the map under a key is the one that was there, or a fresh empty one in place of anything else |
| ValueMaps.Build | pkg/helm/loader.go:205-296 | a heap map built from a tree has that tree and shares nothing |
| ValueMaps.Store | pkg/helm/application.go:226-226 | storing any value under a key |
| ValueMaps.SetChartValue | pkg/helm/application.go:216-227 | setting a path in nested heap maps makes the tree that the specification sets, in place, with fresh maps only where needed |
| ValueMaps.SetBelow | pkg/helm/application.go:223-223 | the recursive call on the map one step down, put back into the whole |
| ValueMaps.MergeMaps | pkg/helm/application.go:165-177 | for disjoint heap maps and any order of keys, base becomes the merge, custom is unchanged, and the two share no map afterwards |
| ValueMaps.MergeKey | pkg/helm/application.go:166-175 | one key of custom |
| ValueMaps.MergeUnder | pkg/helm/application.go:168-173 | merging a map into the one under a key, made if there is none |
| ValueMaps.MergeBelow | pkg/helm/application.go:172-172 | the recursive merge, put back into the whole |
| Keys.FieldsOf | pkg/helm/application.go:197-207 | the loop with its escape flag finds the specified fields |
| Keys.KeySplitHandleEscape | pkg/helm/application.go:196-214 | fields without their backslashes, for every key |
| Keys.SplitNotEmpty | pkg/helm/application.go:196-217 | the splitter returns a segment if and only if the key has a character other than a dot, which setting a value needs |
| Keys.SplitOfJoin | pkg/helm/application.go:196-214 | joining any backslash-free segments with escaped inner dots and splitting loses the empty ones and nothing else |
| Keys.KeyRoundTrip | pkg/helm/application.go:196-214 | a list of segments comes back if and only if none is empty or has a backslash |
| Keys.SplitByName | pkg/helm/application.go:196-214 | a dot separates, and one behind a backslash does not and stays as a dot |
| Keys.ParseKey | pkg/helm/application.go:144-147 | name and options are free of commas and spell the key when joined with commas |
| Values.BoolRoundTrip | pkg/helm/application.go:248-249 | a printed boolean parses back |
| Values.IntRoundTrip | pkg/helm/application.go:248-251 | a printed integer comes back as an integer if and only if it fits 64 bits and is not 0 or 1, which come back as booleans |
| Values.QuoteRoundTrip | pkg/helm/application.go:262-268 | a quoted string comes back as it was, whatever it spells |
| Values.BooleansAre | pkg/helm/application.go:248-249 | exactly twelve texts are booleans |
| Values.SignedDigits | pkg/helm/application.go:250-251 | digits with or without a sign are an integer when they fit 64 bits |
| Values.OnlySignedDigits | pkg/helm/application.go:250-251 | and nothing else is one |
| Values.NumbersAre | pkg/helm/application.go:250-253 | a text that is no boolean is read as an integer if it is one, and else as a float if it is one |
| Values.JsonIs | pkg/helm/application.go:254-260 | a text that is neither and opens a list or an object is its JSON value, or an error exactly when it has none |
| Values.TextIs | pkg/helm/application.go:262-268 | any other text is itself, less one quotation mark in front and one behind |
| Values.MainIsPlain | pkg/helm/application.go:262-268 | such a text is the branch main |
| Enrichers.BatchGlobals | pkg/helm/loader.go:106-124 | the loop builds the batch of all global values in a map of its own, or stops at the first bad cipher, value or key |
| Enrichers.EnrichGlobal | pkg/helm/loader.go:97-127 | the batch is merged over the chart's values; after an error they are untouched |
| Enrichers.EnrichTeam | pkg/helm/loader.go:150-168 | the team's values are set one by one onto what is there, but for the two keys it skips and the omitted ones; an error leaves what the rows before the bad one have set |
| Enrichers.ParseTeamValue | pkg/helm/application.go:149-163 | one team value: omitted, refused with nothing set, or set |
| Enrichers.EnrichAirflow | pkg/helm/loader.go:196-329 | the init container is merged in, and the environment when either list has an entry; a missing row or a bad list is an error |
| Enrichers.EnrichChain | pkg/helm/loader.go:66-76 | the enrichers in turn, up to the first error |
| Precedence.ChainIs | pkg/helm/application.go:57-73 | a release's values are chart, globals, team and, for Airflow, the Airflow layer, in this order |
| Precedence.AirflowSets | pkg/helm/loader.go:205-326 | the Airflow layer is two settings, the second only with something to set |
| Precedence.TeamWins | pkg/helm/loader.go:150-168 | a team path that no later team value touches reads the team's value, whatever the earlier ones and the layers below say |
| Precedence.GlobalShows | pkg/helm/loader.go:97-127 | every path where the global values together have a scalar reads it, when no team path touches it, whatever the chart says and whatever the globals clash on elsewhere |
| Precedence.GlobalSettingShows | pkg/helm/loader.go:97-127 | in particular a global scalar that no later global value touches |
| Precedence.GlobalRowReads | pkg/helm/loader.go:101-126 | by rows and readings: a global row that no later one and no team row touches is what Helm gets at the path of its key, as the meaning of its plain text, which is the decrypted one if it is encrypted; a plain text is read as it is |
| Precedence.BadCipherFails | pkg/helm/loader.go:109-114 | an encrypted row that does not decrypt fails the layer, whatever the others are |
| Precedence.ChartShows | pkg/helm/loader.go:66-76 | every other path reads what the chart has |
| Precedence.AirflowOverrides | pkg/helm/loader.go:298-326 | the two overrides read the init container, and the global environment followed by the team's when either has an entry |
| Precedence.EnvironmentReads | pkg/helm/loader.go:300-326 | Airflow's environment is the list in the global row env followed by the team's |
| Precedence.KnauditReads | pkg/helm/loader.go:200-298 | the one init container has the image of the global row knauditImage,omit |
| Precedence.KnauditIs | pkg/helm/loader.go:207-275 | its name, its image and what it asks for |
| Precedence.KnauditRunsAs | pkg/helm/loader.go:288-292 | it runs as user 50000 and cannot gain privileges |
| Precedence.KnauditEnvIs | pkg/helm/loader.go:211-269 | its nine environment entries, by name and source |
| Precedence.FieldIs | pkg/helm/loader.go:212-217 | an entry taken from a field of the pod |
| Precedence.EnvVarIs | pkg/helm/loader.go:224-227 | an entry with a value of its own |
| Precedence.KnauditMountsAre | pkg/helm/loader.go:276-287 | its two mounts |
| Precedence.GlobalsDirect | pkg/helm/loader.go:106-126 | when nothing global is set below an earlier scalar, the global layer is setting its values straight onto the chart |
| GlobalStore.Globals.Insert | pkg/database/gensql/global_values.sql.go:53-65 | a row is appended |
| GlobalStore.Globals.Delete | pkg/database/gensql/global_values.sql.go:10-15 | all rows of the key and chart go, and no others |
| GlobalStore.NewestOfDelete | pkg/database/gensql/global_values.sql.go:10-15 | after a delete the key has no value, and every other key and chart the one it had |
| GlobalStore.Globals.GlobalValuesGet | pkg/database/gensql/global_values.sql.go:84-89 | one row for each key of the chart: its newest |
| GlobalEdit.PartnersPair | pkg/api/admin.go:574-590 | key and value fields pair one to one |
| GlobalEdit.ValueForKey | pkg/api/admin.go:617-625 | the entry under that very name |
| GlobalEdit.KeyForValue | pkg/api/admin.go:627-635 | some entry with that new value, if there is one, in whatever order the map is read |
| GlobalEdit.ChangedOriginal | pkg/api/admin.go:598-610 | a stored key is changed exactly when the form's value differs |
| GlobalEdit.FindChangedValues | pkg/api/admin.go:555-615 | for every form, what the loop returns is the outcome of some run: some order of all its fields and some choice of matching entries |
| GlobalEdit.FindDeletedValues | pkg/api/admin.go:533-553 | every stored key the form leaves out becomes a deletion, over whatever was recorded for it |
| Pairing.RunRecords | pkg/api/admin.go:561-612 | what a partial run over a tidy form has recorded depends on which fields it has visited, but for placeholders that make no difference |
| Pairing.Found | pkg/api/admin.go:627-635 | whatever a value field finds is the entry of its own key field, or a change that has its name for its value |
| Pairing.OrderIndependent | pkg/api/admin.go:555-615 | over a tidy form every order gives the same changes |
| Orders.StrayFirst | pkg/api/admin.go:590-596 | a value field without its key field leaves its placeholder when it comes first |
| Orders.StrayLater | pkg/api/admin.go:583-589 | and none when it comes after a change that it finds instead |
| Orders.StandardRun | pkg/api/admin.go:561-612 | keys first and each value to its own key: over any closed set of fields some run records just what they ask for |
| Orders.WrongRun | pkg/api/admin.go:627-635 | and some run gives a value to another's name and leaves its own with the field's name |
| Orders.OrderMatters | pkg/api/admin.go:627-635 | two orders disagree whenever one new key's value is the name of another's value field whose value is not the same name |
| Clashes.KeyNameDisagrees | pkg/api/admin.go:568-580 | for any form: a new key whose name is another key field lets the order decide, since its entry is moved on only when it comes first |
| Clashes.OwnNameDisagrees | pkg/api/admin.go:568-596 | so does an empty name, and the name of its own field, when there is a value to go with it |
| Clashes.SameNameDisagrees | pkg/api/admin.go:568-596 | so do two new keys of the same name, of which one has a value |
| Clashes.LoneNamesDisagree | pkg/api/admin.go:568-580 | and two of the same name without values |
| Clashes.EditedNameDisagrees | pkg/api/admin.go:598-612 | so does a new key with the name of a stored key that is edited at the same time |
| Clashes.WaitingDisagrees | pkg/api/admin.go:568-596 | so does a new name under which a lone value waits, unless that value and the key's own both only echo what the key records first |
| Clashes.OrderExactly | pkg/api/admin.go:555-635 | for every form but those with such an echo, with clashing names, complete or not, any ticks and stored keys: all orders agree if and only if the names fit and no change that has the name of another's value field for its value can be found by it to any harm |
| Pairing.LeftOverExactly | pkg/api/admin.go:568-596 | nothing is left under a placeholder or holds the name of a missing field if and only if every key field has its value field and the other way round |
| Pairing.PairingExact | pkg/api/admin.go:555-615 | every run over a whole tidy form, complete or not, records for every name the change the form makes |
| Patch.UpdateGlobalValues | pkg/api/admin.go:489-519 | in whatever order, every posted key is deleted or gets its posted value, and no other key or chart changes |
| Patch.WithDeletedAt | pkg/api/admin.go:533-553 | a key is recorded for deletion exactly when it is stored and not in the form |
| Patch.DiffThenPatch | pkg/api/admin.go:473-531 | for every tidy form, complete or not, every order and every key: what is stored after diff, confirm page and patch is what the form saves, lone key and value fields included |
| Patch.InputsEnter | templates/admin/confirm.tmpl:25-32 | what the confirm page posts for a change is written as what was entered |
| Patch.EnteredReads | pkg/api/admin.go:521-531 | an entered value is read back, decrypted when it was ticked; an empty one is no value |
| Patch.RecordedExactly | pkg/api/admin.go:483-486 | exactly which keys are recorded as changed |
| Patch.Confirm | pkg/api/admin.go:167-245 | with no change nothing is asked or written; otherwise the confirmed changes are, and a resync is asked for by the tick or by a change of its name |
| Patch.EditGlobalValues | pkg/api/admin.go:135-245 | for every form the store is patched with the outcome of some run, for a tidy one with what the form saves; every other chart stays as it was, and a resync is asked for exactly by the tick, when anything has changed, or by a recorded change of its name |
| Patch.EditRemoves | pkg/api/admin.go:533-553 | for every tidy form, on its own fields: a stored key that the form leaves out is gone afterwards |
| Patch.EditAdds | pkg/api/admin.go:568-596 | the fields key and value of one suffix give the name its value, encrypted if and only if the box is ticked, and no value if the text is empty |
| Patch.EditChanges | pkg/api/admin.go:597-611 | the field of a stored key changes it, ticked or not, when the text differs, and keeps the row when not |
| Patch.EditMakesNothing | pkg/api/admin.go:555-615 | a key neither stored nor mentioned is not made |
| Patch.EditSparesBox | pkg/api/admin.go:227-231 | the name of the resync box is never written |
| EditedRollout.StoredReachesHelm | pkg/helm/loader.go:97-127 | what is stored for a global key, decrypted if it is encrypted, is what Helm gets at the key's path |
| EditedRollout.AddedReachesHelm | pkg/api/admin.go:489-531 | from the administrator to Helm: what was entered for a new key, box ticked or not, is what the next rollout reads |
| EditedRollout.ChangedReachesHelm | pkg/api/admin.go:489-531 | and what was entered for a stored one |
| Patch.ChangeIs | pkg/api/admin.go:555-615 | the change a tidy form makes of each key, said of what is stored |
| Patch.UntouchedExactly | templates/admin/chart.tmpl:82-110 | where the names fit, saving the page as it was shown keeps every key and adds nothing if and only if every stored key is inert: none starting with key writes anything new under its value, and none starting with value has a value without its partner |
| Patch.UntouchedOrders | pkg/api/admin.go:555-635 | on any untouched page without an echo the orders agree if and only if the names and values fit: with two stored keys starting with key of one value, or one whose value is the other, the order decides |
| Patch.PlainUntouched | templates/admin/chart.tmpl:82-110 | so it changes nothing when no stored key starts with key or value |
| Patch.LoneKeyAdds | pkg/api/admin.go:568-580 | with one stored key that does, it adds a global value, named by the stored value, that holds the name of a field the page never had |
| Patch.KeyringAdds | pkg/api/admin.go:568-580 | as for keyring with value abc |
| Structs.CreateChartValues | pkg/reflect/reflect.go:32-55 | the loop over the fields writes the specified map, or stops at the first field it cannot print |
| Structs.ChartValuesAt | pkg/reflect/reflect.go:38-52 | every tag is in the map with its field's text if and only if that is not empty |
| Structs.InterfaceToStruct | pkg/reflect/reflect.go:57-96 | the tagged fields are set in turn; at a bad one the earlier stay set and the later are untouched |
| Structs.StructRoundTrip | pkg/reflect/reflect.go:32-96 | a struct written and read back into one of its shape has the same tagged fields, empty ones included |
| TeamStore.Repo.TeamValueInsert | pkg/database/services.go:138-149 | a row is appended, or nothing when the database refuses |
| TeamStore.Repo.HelmChartValuesInsert | pkg/database/services.go:151-183 | all the values are written, each key once, in any order, or none |
| TeamStore.Repo.ChartDelete | pkg/database/gensql/team_values.sql.go:10-13 | all rows of the team's chart go, and no others |
| TeamStore.NewestOfDelete | pkg/database/gensql/team_values.sql.go:10-13 | after it the chart has no value for any key of the team, and everything else what it had |
| TeamStore.Repo.TeamValueGet | pkg/database/gensql/team_values.sql.go:69-75 | the newest row of the key, of any chart |
| TeamStore.AnywhereIsNewest | pkg/database/gensql/team_values.sql.go:69-75 | which is the newest of the chart when there is one type of chart |
| TeamStore.Repo.TeamValuesGet | pkg/database/gensql/team_values.sql.go:124-130 | the newest value of each key |
| TeamStore.Repo.TeamConfigurableValuesGet | pkg/database/teams.go:95-110 | the fields read what is stored under their tags |
| Sync.GetOrGeneratePassword | pkg/chart/airflow.go:462-476 | the stored key if it is Airflow's and not empty, the generated one if there is none, and an error otherwise |
| Sync.GetFlag | pkg/chart/airflow.go:200-226 | a stored flag, or the request's when there is none |
| Sync.FillIn | pkg/chart/airflow.go:185-228 | a request without a repo takes repo, branch and flags from the store |
| Sync.MergeAirflowValues | pkg/chart/airflow.go:184-266 | the merged values, or the first error |
| Sync.SyncAirflow | pkg/chart/airflow.go:65-100 | what a sync writes: nothing on an error or a refused transaction, otherwise its chart values and as many of the four single values as the database takes; and it succeeds exactly when all were taken |
| Sync.InsertSingles | pkg/chart/airflow.go:86-100 | the four single values in order, up to the first the database refuses |
| SyncHistory.ConfigWritten | pkg/chart/airflow.go:38-63 | a configured text is among the written values if and only if it is not empty, under its own tag |
| SyncHistory.SettingStep | pkg/chart/airflow.go:65-100 | one operation on a setting: a deletion clears it, a sync that commits and asks for something sets it, anything else leaves it |
| SyncHistory.Sticky | pkg/chart/airflow.go:65-100 | over every history of syncs and deletions, also failing ones, a setting is the last non-empty text a committed sync of the team set since its chart was deleted |
| SyncHistory.StickyReads | pkg/database/teams.go:95-110 | and that is what the configuration field reads, or empty |
| SyncHistory.KeysKept | pkg/chart/airflow.go:462-476 | between deletions the fernet key and the webserver secret keep the value they were first given |
| SyncHistory.KeyStep | pkg/chart/airflow.go:462-476 | an operation keeps a stored key, and a key that appears is the one generated |
| SyncHistory.ResyncKeeps | pkg/chart/airflow.go:184-228 | a resync, complete or cut short, changes neither repo, branch, image and tag nor the meaning of the two flags |
| SyncHistory.ResyncNeedsBranch | pkg/chart/airflow.go:193-196 | in a sound store a resync finds what it needs if and only if there is a branch |
| SyncHistory.ResyncExactly | pkg/chart/airflow.go:184-228 | over every history of any requests: if and only if some sync has set a branch since the last deletion |
| SyncHistory.RepoWithBranch | pkg/api/chart.go:423-445 | over every history of the requests that the program registers, a repo has been set if and only if a branch has, since a blank branch becomes main |
| SyncHistory.ResyncAlways | pkg/api/chart.go:324-346 | so over every such history a team can be resynced if and only if it has a repo stored, which is the last one it asked for since its chart was deleted |
| SyncContents.StoresConfig | pkg/chart/airflow.go:38-81 | by name: a form that commits stores repo and branch, and image and tag unless they are left out, in which case they stay |
| SyncContents.BlankBranchIsMain | pkg/api/chart.go:324-327 | a blank branch is stored as main |
| SyncContents.StoresMade | pkg/chart/airflow.go:247-260 | by name: the two environments, the labels, and the team as the service account of webserver, scheduler and worker |
| SyncContents.StoresFlags | pkg/chart/airflow.go:94-100 | a form that completes stores both flags as it asked for them |
| SyncContents.StoresKeys | pkg/chart/airflow.go:86-92 | and the two keys it generated, if there were none |
| SyncContents.PasswordsAre | pkg/chart/airflow.go:462-476 | a key is generated exactly when none is stored, a stored one is taken exactly when it is Airflow's and not empty, and anything else is an error |
| SyncContents.AnyFlagStep | pkg/chart/airflow.go:184-228 | one operation on a flag: a deletion clears it, a form that commits and gets that far sets it to what was asked, anything else leaves it |
| SyncContents.FlagsSticky | pkg/chart/airflow.go:184-228 | over every history of forms and resyncs, failing and cut short ones included, a flag is what the last form that wrote it asked for since the chart was deleted |
| SyncContents.WebserverFollowsAccess | pkg/chart/airflow.go:250-260 | and the stored webserver environment is the one generated for the access last asked for |
| Rollout.RowSets | pkg/helm/application.go:149-163 | each of the ten chart keys a sync writes sets its own path to what its text means |
| Rollout.RowPathsApart | pkg/chart/airflow.go:38-63 | no two of the ten paths contain one another |
| Rollout.SecretsStayOut | pkg/helm/loader.go:156-162 | the two secrets and the two flags set nothing, nor do the two unset keys |
| Rollout.KnownAlways | pkg/chart/airflow.go:65-100 | over every history a team's store holds no keys but the fourteen a sync writes |
| Rollout.RolloutSeesLastAsked | pkg/helm/loader.go:150-168 | from the form to the cluster: over every history of syncs and deletions the values handed to Helm read, at the path of each setting, what the team last asked for; what it never asked for is left to the global values and the chart |
| Rollout.RolloutReadsStored | pkg/helm/loader.go:150-168 | by name: nine of the stored keys are read at their own paths, a plain text as it is |
| Rollout.RolloutReadsAsked | pkg/helm/loader.go:150-168 | so over every history Helm gets the plain text that the team last asked for |
| Env.SplitEnv | pkg/helm/helm.go:491-515 | the loop splits every line at its first equals sign, later lines over earlier |
| Env.EnvironRoundTrip | pkg/helm/helm.go:460-476 | the variables survive being listed and split in any order, equals signs in values included |
| Env.Process.SetAll | pkg/helm/helm.go:480-485 | all variables are set; or it stops at one the system does not take, with just some of the others set |
| Env.EstablishEnv | pkg/helm/helm.go:450-488 | the call's variables with the kept ones replace the environment; a variable that is not taken is an error that leaves just some of them and none of the old |
| Env.SplitOfName | pkg/helm/helm.go:491-515 | a line without an equals sign is a variable with an empty value |
| Env.KeptReads | pkg/helm/helm.go:451-458 | a variable to keep is there if the call gives it or the process has it, the call first |
| Env.RestoreEnv | pkg/helm/helm.go:463-478 | what was saved is put back exactly |
| Env.Fetch | pkg/helm/helm.go:294-302 | ends with the environment it began with on every way out, unless its own variables are not valid |
| Env.Apply | pkg/helm/helm.go:136-169 | the same with the fetch nested inside |
| Env.Execute | pkg/helm/helm.go:450-488 | carrying out any trace of valid calls on a process leaves the environment that the trace semantics says |
| Env.NestedRestores | pkg/helm/helm.go:136-166 | any well-nested calls end as they began, at any point of any trace |
| Env.RestoredExactly | pkg/helm/helm.go:463-478 | calls that overlap in any way restore every environment if and only if their restores lead back to the start |
| Env.OverlapLeaks | pkg/helm/helm.go:136-144 | two calls of which the first to begin is the first to end leave the first's variables behind |
| Leadership.IsLeader | pkg/leaderelection/leaderelection.go:12-30 | without a path in the environment the answer is yes; otherwise it is whether the elector, if it is reached, names this host |
| Leadership.OnlyElectedActs | pkg/events/dispatcher.go:249-262 | any number of processes on one table, over every run: while the vote moves only with all at rest and their environments restored, no process but the elected one has selected events or live workers |
| Leadership.NotCleared | pkg/events/dispatcher.go:249-256 | a tick that finds the process deposed, or whose reset fails, fetches nothing |
| Leadership.ClusterExclusion | pkg/events/dispatcher.go:249-313 | and if the steps are orderly too, no two workers of any processes ever act for the same owner and resource, however often leadership moves |
| Leadership.PathStaysGone | pkg/leaderelection/leaderelection.go:13-17 | a process whose path is gone answers that it leads in every run without a Helm call or a restart of its own, whoever is elected |
| Leadership.CallsTakePath | pkg/helm/helm.go:450-488 | a Helm call in progress takes the path away, and two that crossed have done so for good |
| Leadership.DeposedGoesOn | pkg/events/dispatcher.go:349-363 | with all at rest, but the deposed process without its path, it and the new leader take up the same event |
| Leadership.BusyHandOverDoubles | pkg/events/dispatcher.go:355-360 | so they do when the vote moves while a worker is at work |
| Leadership.LateNoticeDoubles | pkg/events/dispatcher.go:355-360 | with all at rest and restored, a deposed process that notices late resets the event the new leader works on, which is then taken up twice |

## Left out

- Time of creation: rows are in order of insertion and the newest is the last; ties of timestamps are not modelled, and an event's id is its place in the table.
- Payloads: whether one decodes is an answer of the world; its contents do not matter to the queue.
- The clusters, the cloud and Helm are answers of the world: success, failure, rollback, deadline reached or not. So is the leader election in the runs of one process; `Leadership` has it for several.
- Goroutine scheduling inside one statement, the list of cancel functions, and the event log.
- The retry count is an unbounded number; it never passes six where increments are accepted.
- Decimal.ParseDuration: reads whole hours, minutes and seconds, which is what the program writes; a bare 0 is zero, and fractions, signs and smaller units of Go's durations are not read.
- Events.EventRepo.DispatchableEventsGet: reads both lists at one instant; failing reads end the tick and are not modelled. In the state machine a fetch that would panic is not a step; what the panic does to the process is the step of a crash.
- Registrations by the API that fail, and reads that fail, which change nothing.
- Exclusion.MutualExclusion: needs the promises of an orderly run; `BadRuns` has a run that breaks it without each of them.
- Exclusion.FirstInFirstOut: needs further promises, that payloads decode and that the administrator keeps off selected and overtaken events; no runs that break the order without them are given.
- Descendants.RequestBound: counts attempts, not registrations by the API, and has one type of chart, so a team update registers at most one event.
- The ticker and the wall clock: pauses are a set of teams at each fetch.
- Lists inside values are immutable here; in the program the merged tree shares them with the global values.
- Values.ParseString: the syntax of floats and of JSON are parameters; only strings are parsed, as the stores hold nothing else.
- Keys.FieldsOf: calls the separator test once for each character in order, as the library does and does not promise; strings are sequences of characters, not of bytes.
- A key that is only dots panics in the program and is the error NoSegment here, after the value has been parsed, as there.
- Encryption is a pair of functions; the nonce, and errors other than a bad cipher, are not modelled.
- HTML escaping, browsers that strip line breaks from text fields and drop fields without a name, sessions, and the registration of resync events after an edit.
- Patch.EditGlobalValues: nobody else edits between the form and the confirmation, and the database takes every row.
- Clashes.OrderExactly: leaves out forms with an echo, where a new name is one under which a lone value waits and every value concerned is the literal name of the key's own value field, and forms where a new name is that of an edited stored key whose stored value is empty, as only an empty ciphertext could make it.
- Patch.UntouchedOrders: says that the order decides where names clash, and not what each order then writes.
- Leadership.OnlyElectedActs: the elector is a name that any vote may change, and a check reads it and resets in one step; an elector that cannot be reached ends the tick and is no step.
- Structs.InterfaceToStruct: quoting and parsing of lists of strings are parameters.
- Sync.SyncAirflow: stops where the original turns to the cluster; generated environments and labels are given, and rows are refused by a fault plan.
- SyncHistory.Sticky: takes the one type of chart there is, since single values are read without asking for the chart.
- SyncContents.FlagsSticky: takes a request without a repo to be the empty one, which is all that the program registers.
- EditedRollout.AddedReachesHelm: says it of plain texts, and of keys whose path nothing else that is stored touches; `Values` says what other texts mean, and `Precedence` which layer shows.
- FollowUps.CompletedHasFollowUp: finds the follow-up by owner and request; rows do not record which event registered them.
- Rollout.RolloutSeesLastAsked: the rollout reads the store at one instant, and its layers succeed; a rollout that fails on a value is an error, not a reading.
- Env.NestedRestores: traces have calls whose variables are valid and keep none; EstablishEnv itself keeps what it is asked to.
- Environment lines without an equals sign or with an empty name do not occur in the modelled process.
- HTTP handlers, OAuth, validators, configuration, resource builders, and the user and compute parts of the program: only easy claims.
