# Verified model of the SensorThings translation layer

The translation layer polls or receives waste-container readings, validates them, and writes
them to one or more FROST servers that reject neither duplicate names nor duplicate
observations. Calls fail, replies get lost, processes crash, and the write log is purged.
This project models the code that has to stay correct through all of that and proves what
every run keeps. `dafny verify dfyconfig.toml` checks all of it.

Protocols are state machines whose environment answers adversarially (`Step`/`Run` over
events). The Go code that drives them is modelled again as classes and loops; before each of
their effects other goroutines may run, and each method is proved to perform a piece of a run
of the machine, so what is proved of all runs holds of the code's own loops.

| files | what they model |
|---|---|
| `Canonical`, `Validator`, `Store` | observations and time, the quality filter, the Postgres tables |
| `WritePath` | the poll/push -> resolve -> log check -> probe -> POST -> record -> advance protocol, all streams interleaved, with crashes and purges |
| `AtMostOnce`, `LogMeaning`, `CursorMeaning`, `GapFree`, `Completion` | what every run of it keeps, and that a cycle gets through |
| `Environment`, `Ingest`, `PollRecord` | the clients with arbitrary answers and each stream's ledger of what its calls came to; `ProcessStream`, `writeObservation`, `runDatastreamCycle` over them; what a recorded poll is for |
| `Upsert`, `Flights`, `EntityWriter`, `Ownership` | `GetOrCreate`: cache, singleflight, re-check, find, create; that waiting ends; why ids have one owner |
| `Session`, `Paging`, `Sulo`, `SuloRuns` | the REEN client's tokens and pages, the SULO fetch, and ingest runs over it |
| `Chunking`, `Delivery`, `Reader`, `ReaderGaps` | the Collaborall reader, its cursor file, and what the cursors do not promise |
| `Push`, `Replay`, `PushReplay`, `WriteRefines` | the push endpoint, and resending until 202 |
| `Watchdog`, `Dummy`, `OData` | the alert hysteresis, the synthetic adapter, literal escaping |

## Where the code does not do what is written about it

Each of these is a theorem that says exactly when the promise holds, with a run or
input where it does not.

* A log row is meant to stand for data in FROST. It does, except for the observation on which
  every target's POST answered 409 after an empty probe, or for which there is no target
  (`LogMeaning.RecordedWithoutDataIffAllConflict`; a run of that kind is
  `LogMeaning.RowWithoutData`).
* "Dropped" is documented as refused on every target; the code drops as soon as nothing was
  freshly created and one target refused. Hence resending a push batch converges to the clean
  run if and only if each key that some targets refuse and others take is already logged, or
  is already held by every target that takes it (`PushReplay.ResentBatchIsCleanIff`): one
  failed INSERT loses any other such key for good (`Replay.OpenMixedIsLostByOneFailure`).
* All callers of `GetOrCreate` get one id over restarts if and only if the server held at
  most ten entities of the name, because the lookup asks for ten
  (`Upsert.AllRunsAgreeIffFewDuplicates`, `Upsert.TooManyDuplicatesDisagree`).
* The ingest core lets a single future-dated row set the cursor
  (`GapFree.OneFutureRowPoisonsTheStream`, and for batches of any size
  `SuloRuns.AnyFutureRowPoisonsTheStream`); a cursor passes the clock exactly when such a row
  is fetched (`GapFree.CursorPassesClockIff`).
* The cursor is meant to pass only what was fetched. A fetch that returned everything is not
  enough: a row that appears behind it before the cycle ends is lost
  (`GapFree.LateArrivalIsLost`). When rows arrive beyond the cursor, no gap ever appears if
  and only if each move of a cursor passes only rows that its cycle had, or that were handled
  before (`GapFree.NoGapIff`).
* SULO rows come newest first, so a batch cut by the limit is a prefix of the source if and
  only if none of the rows that were read passes, or no passing row with an instant of its
  own was cut off (`Sulo.CutFetchIsAPrefixIff`, with a list in `Sulo.LimitLosesARow`). What
  was cut off is never logged once the cursor has moved (`SuloRuns.CutOffIsNeverLogged`).
* De-duplication by `UnixNano` is exact if and only if the int64 stamps tell the passing rows
  apart (`Sulo.TimesAreExactIff`); they do within 584 years of the cursor, and two rows 2^64
  ns apart collide (`Sulo.StampsCollide`).
* `chunkEnvelopes` says "under maxBytes". A full envelope of equal observations is within the
  budget if and only if the division leaves 3 bytes for each observation but the first
  (`Chunking.EqualBudgetIsMetIff`, for any lengths `Chunking.FullBudgetIsMetIff`); with the
  reader's 900 KiB and observations of up to 1600 bytes it never is
  (`Chunking.ReaderBudgetIsNotMet`, `Chunking.EnvelopeOverTheBudget`).
* The reader's cursor is meant to lose nothing between the stream's first look-back and
  itself. A cycle that fails before the cursor is in the file looks back again, from a later
  seed (`ReaderGaps.FirstSeedLosesARow`). From any state, no continuation skips a row behind a
  seed if and only if none is skipped yet and the cursor is set both in memory and in the file
  (`ReaderGaps.SeedIsSafeIff`).
* A full page of undecodable source rows stops a reader stream whose cursor is set in memory
  and in the file for ever; without one of the two a look-back can start behind the page
  (`ReaderGaps.UndecodablePageStopsIff`, with `ReaderGaps.LookBackPassesAPage` and
  `ReaderGaps.RestartPassesAPage`).
* Alerts alternate, starting with stale, if and only if an even number of them had been lost
  whenever one was sent (`Watchdog.FiresAlternateIff`); one is lost with each committed state
  write that looked failed (`Watchdog.FiresAreCrossingsIff`). "Recovered" can be the first one
  ever sent (`Watchdog.LostReplyStartsWithRecovered`).
* The dummy curve repeats every twelve hours if and only if no int64 wrap falls between
  (`Dummy.PeriodicIff`); the first one does in 2262 (`Dummy.WrapBreaksThePeriod`).
* Two Things share a push stream key exactly when one's id followed by `|` starts the other's
  (`Push.KeysCollideIff`, `Push.KeysCollide`).

## Assumptions

* FROST targets are reached over HTTP, and what a call does has happened when it returns,
  whatever it returns. Each stream has one cycle at a time; a Thing listed twice in one
  discovery pass, or overlapping push requests for one stream, would break that
  (`IngestBatch` reports the overlap it meets).
* Streams have different Datastream names; that they then resolve Datastreams of their own
  (`Config.owner`) follows, because `GetOrCreate` never hands out an id for two names
  (`Ownership.OwnersExist`). Server ids are positive, and no other program creates entities
  or observations on the targets.
* Time is an integer number of ticks since Go's zero time, so that 0 is what `IsZero` tests.
* Fill levels are reals or NaN; rounding plays no part in the rules that are modelled.

## Model

| member | source | states |
|---|---|---|
| Validator.Filter | internal/validator/validator.go:64-83 | the loop yields the recursive partition of the batch, and every row lands in exactly one half |
| Validator.ReasonIs | internal/validator/validator.go:89-118 | which rule rejects a row, in plain bounds: fill levels from 0 to 100 and times up to now plus the skew pass, a zero cursor is none, passthrough rows skip the value rules |
| Validator.KeptIsOrdered | internal/validator/validator.go:74-82 | the kept half is the input at the ascending positions of exactly the rows that break no rule |
| Validator.RejectedIsOrdered | internal/validator/validator.go:74-82 | the rejected half lists the other positions in order, each with the rule its row breaks |
| Validator.KeptMembers | internal/validator/validator.go:64-83 | a row is kept if and only if it is in the batch and passes |
| Validator.LateBatchIsRejected | internal/validator/validator.go:111-115 | with a non-zero cursor, a batch dated at or before it is rejected to the last row |
| Store.AdvancePollCursor | internal/state/pgstore.go:206-219 | the cursor ends at or above the new value, is the new or the old one, and no other row changes |
| Store.PGStore.Upsert | internal/state/pgstore.go:112-130 | a new stream row, or only the cadence of the old one |
| Store.PGStore.GetPollCursor | internal/state/pgstore.go:190-204 | the stored cursor, the zero time for NULL, not-found without a row |
| Store.PGStore.Advance | internal/state/pgstore.go:206-219 | the in-place update is the table function AdvancePollCursor |
| Store.PGStore.MarkPolled | internal/state/pgstore.go:221-228 | only last_polled_at of the stream changes |
| Store.PGStore.ObservationExists | internal/state/pgstore.go:230-244 | true if and only if the key is in the write log |
| Store.PGStore.Record | internal/state/pgstore.go:246-285 | inserts row and freshness index together, or answers conflict or missing stream and changes nothing |
| Store.PGStore.Purge | internal/state/pgstore.go:364-373 | exactly the log rows written before the cutoff go and are counted; the others and the index stay |
| Store.PGStore.GetStalenessSnapshot | internal/state/pgstore.go:287-331 | counts the polled streams and the stale ones among them, and names up to five stale ones, none newer than a stale one left out |
| Store.StaleIff | internal/state/pgstore.go:287-331 | stale means polled and never written, or last written longer ago than three cadences and than an hour |
| Store.SampleWaitsLongest | internal/state/pgstore.go:311-321 | no stream that a snapshot names has been written later than a stale one it leaves out |
| Store.LastWrittenIsNewestEverLogged | internal/state/pgstore.go:246-285 | over every run of upserts, moves, records, conflicts and purges, last_written_at is the newest time ever logged |
| Store.StaleUntilNewerWrite | internal/state/pgstore.go:287-331 | a polled stream stale at one instant is stale at every later one until a newer time is inserted |
| Store.CursorNeverMovesBack | internal/state/pgstore.go:206-219 | no run of table operations moves a poll cursor back |
| AtMostOnce.NoSecondCopy | internal/ingest/ingest.go:271-335 | in every run no server holds two observations of one (datastream, time) |
| AtMostOnce.CopiesNeverFall | internal/ingest/ingest.go:271-335 | nothing a run does removes an observation from a server |
| AtMostOnce.PostFollowsProbe | internal/frost/writer.go:185-205 | a POST is due only in the state a negative probe left, or stays due |
| AtMostOnce.MakeIsPost | internal/frost/writer.go:204-214 | an observation is created only by a due POST, on its own target and under its own key |
| AtMostOnce.EffectFrame | internal/frost/writer.go:179-215 | an effect changes only its own stream's counts, never lowers one, and never makes two of one |
| AtMostOnce.RunKeepsInv | internal/ingest/ingest.go:271-335 | at most one copy and probe-before-POST hold in every reachable state |
| LogMeaning.LoggedMeansHeld | internal/ingest/ingest.go:289-334 | a row ever logged had a definite answer from every target, each that said created or present holds exactly one copy, and some target does unless all conflicted |
| LogMeaning.RecordedWithoutDataIffAllConflict | internal/frost/writer.go:205-213 | when the INSERT is due, some target holds the data if and only if some target did not answer 409 |
| LogMeaning.RowWithoutData | internal/frost/writer.go:205-213 | a concrete run of one target ends with a log row and nothing on any server |
| LogMeaning.RetryCompletesEveryTarget | internal/ingest/ingest.go:289-334 | a key logged without refusals and conflicts is on every target exactly once, whatever earlier attempts left |
| LogMeaning.RunKeepsLogInv | internal/ingest/ingest.go:289-334 | open attempts and logged rows stay backed by the servers in every reachable state |
| LogMeaning.RecordingIsComplete | internal/ingest/ingest.go:323-327 | the INSERT is reached only with one answer per target and not for a dropped observation |
| LogMeaning.PurgedRowIsAskedAgain | internal/state/pgstore.go:364-373 | after a purge the log check finds nothing and every target is asked again |
| WritePath.FirstCreatedIdIsFirst | internal/ingest/ingest.go:305-320 | the id of a log row is the first non-zero one that a create returned |
| CursorMeaning.CoveredMeansHandled | internal/scheduler/scheduler.go:179-192 | a cursor changes only at the end of a whole batch, to its greatest time; each row that passes the cycle's own validation was logged or refused for good, and each other one rejected |
| CursorMeaning.CursorMovesOnlyInAdvance | internal/scheduler/scheduler.go:188-192 | no other effect of any stream moves a cursor, and that one only upwards |
| CursorMeaning.CursorNeverMovesBack | internal/scheduler/scheduler.go:188-192 | over every run with crashes and purges a set cursor only grows |
| CursorMeaning.RunKeepsProgress | internal/ingest/ingest.go:87-157 | every open cycle accounts for its batch: each row is kept and still to do, or dealt with as the cycle's own validation demands and not above the running maximum |
| CursorMeaning.StartIsTrue | internal/ingest/ingest.go:97-114 | after validation each row is kept, or rejected and covered by the maximum |
| CursorMeaning.MaxRejectedIsMax | internal/ingest/ingest.go:100-108 | the rejection loop's maximum is attained and bounds every rejected time |
| GapFree.NoGap | internal/scheduler/scheduler.go:148-193 | if new rows are newer than the cursor and each move of a cursor passes only rows its cycle had or that were handled, every source time between seed and cursor was logged, rejected or refused, whatever failed, crashed or was purged |
| GapFree.NoGapIff | internal/scheduler/scheduler.go:179-192 | when rows arrive beyond the cursor, no stream has a gap at any event of a run if and only if every move of a cursor is complete in that sense |
| GapFree.LateArrivalIsLost | internal/scheduler/scheduler.go:172-192 | a concrete run: the fetch since 5 was a prefix, [10]; a row at 7 appears; the cursor moves to 10 and 7 is never handled |
| GapFree.SteadyRunIsOrdered | internal/scheduler/scheduler.go:148-193 | prefix fetches, with new rows behind the newest row of each batch being written, make every move complete |
| GapFree.CycleHasItsFetch | internal/ingest/ingest.go:87-99 | every open poll cycle goes back to one fetch, of its batch, since its start, under the clock its validation used |
| GapFree.AdvanceIsSound | internal/scheduler/scheduler.go:188-192 | a complete move of the cursor leaves no unhandled source time below it |
| GapFree.RunKeepsGapInv | internal/scheduler/scheduler.go:148-193 | streams stay gap-free and cycles start at their cursors in every reachable state |
| GapFree.CursorNeverPassesClock | internal/scheduler/scheduler.go:188-192 | with forecast-free fetches and a forward clock no cursor passes now |
| GapFree.ForecastIsPassedLate | internal/scheduler/scheduler.go:179-192 | what was a forecast once and is late now was passed by a move that happened when it had matured, to the newest time of a batch dealt with to the last row |
| GapFree.CursorPassesClockIff | internal/ingest/ingest.go:101-107 | a cycle is about to move the cursor past the clock if and only if it fetched a row dated after it |
| GapFree.OneFutureRowPoisonsTheStream | internal/ingest/ingest.go:101-107 | one in_future row, fetched alone, becomes the cursor, and every later batch up to its date is rejected |
| GapFree.MaxTimeIsMax | internal/ingest/ingest.go:143-145 | the covered maximum is the start or a time of the batch and bounds them all |
| Environment.Outside.GetPollCursor | internal/scheduler/scheduler.go:163-170 | the cycle goes on from the stored cursor or the lookback seed, or stops on an error |
| Environment.Outside.FetchObservations | internal/scheduler/scheduler.go:172-179 | any batch may come back; its rejections are on record before it is written |
| Environment.Outside.ReceivePush | internal/api/push.go:172-174 | a pushed group starts a cycle with the cursor rule off |
| Environment.Outside.ResolveTargets | internal/ingest/ingest.go:171-181 | one own Datastream per target, or the cycle stops |
| Environment.Outside.ObservationExists | internal/ingest/ingest.go:278-287 | a logged key covers the observation, an absent one leads to the targets |
| Environment.Outside.Probe | internal/frost/client.go:220-254 | present only if the server holds a copy; a permanent refusal and a transient failure are told apart |
| Environment.Outside.Post | internal/frost/client.go:165-216 | created, conflict, refused, or a failure that may have landed |
| Environment.Outside.RecordObservationWrite | internal/ingest/ingest.go:329-334 | covered after success or a unique conflict; an error may hide a commit |
| Environment.Outside.AdvancePollCursor | internal/scheduler/scheduler.go:188-192 | the cursor is as before or the cycle's maximum, and at least that on success |
| Environment.Outside.SetLastPolledAt | internal/scheduler/scheduler.go:157-161 | records the poll and touches no cursor |
| Ingest.Processor.PostObservation | internal/frost/writer.go:179-215 | the returned id, flag and error are the reply the protocol saw; no POST after a positive probe |
| Ingest.Processor.WriteTargets | internal/ingest/ingest.go:289-321 | the labels are those of the targets on which something was created, refusal flag and id summarise the replies of all, or a transient failure ended it |
| Ingest.Processor.WriteObservation | internal/ingest/ingest.go:271-335 | skipped means that this call's lookup or INSERT found the key in the log, dropped that it recorded a refusal, neither that it inserted the row, with the labels of that attempt; an error means one failed call |
| Ingest.Processor.CoverRejected | internal/ingest/ingest.go:100-108 | the loop computes the maximum over cursor and definitively rejected times |
| Ingest.Processor.WriteKept | internal/ingest/ingest.go:126-149 | without an error every kept row was found in the log, dropped or inserted, the count is of those found, and the maximum covers them; a transient error stops the stream |
| Ingest.Processor.WriteBatch | internal/ingest/ingest.go:116-149 | the part behind the validation: resolve and write, with every row of the batch dealt with on success |
| Ingest.Processor.ProcessStream | internal/ingest/ingest.go:87-157 | accepted is what passes and rejected what breaks a rule; on success accepted is skipped plus dropped plus inserted in this call, every row is dealt with, and the maximum is the batch's own |
| Ingest.Scheduler.IngestAndAdvance | internal/scheduler/scheduler.go:179-192 | the cursor moves only to the maximum of a batch whose every row was dealt with by this validation |
| Ingest.Scheduler.RunDatastreamCycle | internal/scheduler/scheduler.go:148-193 | asks for the cursor once, fetches unless that failed, moves the cursor only by the rule above, and, however it ends, closes with the record of the poll |
| Ingest.Scheduler.PollAndIngest | internal/scheduler/scheduler.go:163-193 | the cycle without that record: it starts at the stored cursor and validates under a clock of its own duration |
| PollRecord.RowTellsPolls | internal/scheduler/scheduler.go:156-161 | over every run last_polled_at is the instant of the last recorded poll |
| PollRecord.SilentStreamIsStale | internal/state/pgstore.go:287-331 | a stream with a recorded cycle is counted, and stale at every instant if nothing of it was ever written |
| Ingest.ReachableOutsideIsSound | internal/ingest/ingest.go:87-157 | whatever the imperative code has done, at most one copy, backed rows and accounted batches hold |
| Ingest.BatchSettled | internal/ingest/ingest.go:87-157 | kept rows done and rejections recorded together settle the whole batch |
| Ingest.MaxReached | internal/ingest/ingest.go:100-145 | the maximum over rejected and written rows is the maximum of the batch |
| Completion.CycleCompletes | internal/scheduler/scheduler.go:172-192 | from any reachable world, a fetched batch whose own calls are all answered without refusal, conflict or failure ends after a bounded number of them with the cursor at its newest time, or where it was if nothing was newer, every kept row logged, and exactly one copy on every target unless the log had it before |
| Completion.EffectIsProgress | internal/ingest/ingest.go:126-149 | each such answer brings the cycle nearer to its end |
| Completion.FavourableRunsExist | internal/ingest/ingest.go:126-149 | in every world there are such runs of any length |
| Upsert.KeyIsInjective | internal/frost/writer.go:48 | the cache key determines entity and name, although names may contain the separator |
| Upsert.FindLowest | internal/frost/client.go:152-158 | the loop returns a member of the answer that bounds it from below |
| Upsert.OneFlightOnePut | internal/frost/writer.go:101-117 | under every interleaving one leader per key, and each key is cached at most once per process |
| Upsert.NeverTwoOfAName | internal/frost/writer.go:90-170 | a name the server lacked never gets two entities, and one it had keeps its matches, through lost replies and restarts |
| Upsert.AllCallersAgree | internal/frost/writer.go:90-170 | with at most ten duplicates all successful callers of all processes get the lowest match |
| Upsert.CallersOfOneProcessAgree | internal/frost/writer.go:97-116 | within a process all successful callers get the same id whatever the server holds |
| Upsert.TooManyDuplicatesDisagree | internal/frost/client.go:110-113 | with eleven or more duplicates some run over one restart returns two ids |
| Upsert.AllRunsAgreeIffFewDuplicates | internal/frost/client.go:110-113 | every run returns one id if and only if the server starts with at most ten matches |
| Upsert.RunKeepsInv | internal/frost/writer.go:90-170 | cache, flights and returned ids name their entities in every reachable state |
| Upsert.MoveIsJustified | internal/frost/writer.go:122-170 | a caller creates only while it leads the flight of a name that had no match when it looked |
| Flights.EntersIff | internal/frost/writer.go:105 | at the gate a caller leads if and only if its own key has no flight |
| Flights.WaiterHasALeader | internal/frost/writer.go:105-116 | in every reachable state whoever waits has a live leader of its own key |
| Flights.FlightLands | internal/frost/writer.go:97-117 | a leader whose calls are answered is done after at most six steps of its own, whatever the others do, and all who waited have its outcome |
| Flights.AnsweredRunsExist | internal/frost/writer.go:97-117 | there are such runs of any length in every state |
| Flights.LostReplyLands | internal/frost/writer.go:151-169 | a create whose reply is lost fails its flight, and the next lookup shows the entity and nothing else |
| Ownership.IdsAreNotShared | internal/frost/writer.go:90-170 | in every run of the upserts an id was returned for one entity and name only |
| Ownership.OwnersExist | internal/ingest/ingest.go:216-221 | whatever the targets' upserts have returned, streams with different Datastream names have owners for all ids they can resolve, which is what the protocol relies on |
| EntityWriter.MemEntityCache.Get | internal/frost/writer.go:50-55 | the id stored under the string key, or a miss |
| EntityWriter.MemEntityCache.Put | internal/frost/writer.go:57-61 | sets exactly one string key |
| EntityWriter.PutAgrees | internal/frost/writer.go:57-61 | one string key set is one (entity, name) entry set, for every known collection |
| EntityWriter.Writer.FindByName | internal/frost/client.go:102-160 | empty, one, or duplicates with their lowest id lead the caller to create or to cache; an error, and an empty or overlong name, fails the flight |
| EntityWriter.Writer.FindAgain | internal/frost/writer.go:155-164 | after a 409 only a single match is cached; none, duplicates and errors fail |
| EntityWriter.Writer.Post | internal/frost/writer.go:151-169 | a created id is cached next, a conflict is refetched, other errors fail although the entity may exist |
| EntityWriter.Writer.ResolveUncached | internal/frost/writer.go:122-170 | the flight ends with the id that was cached, or without one |
| EntityWriter.Writer.Create | internal/frost/writer.go:150-169 | the create half of the flight ends the same way |
| EntityWriter.Writer.Recheck | internal/frost/writer.go:106-110 | the leader's second look at the cache decides between landing and looking up |
| EntityWriter.Writer.Fly | internal/frost/writer.go:105-112 | the leader finishes with the flight's outcome |
| EntityWriter.Writer.Enter | internal/frost/writer.go:105 | a caller leads if and only if its key had no flight when it entered; otherwise there is one to wait for |
| EntityWriter.Writer.JoinOrFly | internal/frost/writer.go:105-116 | a caller ends with the flight's outcome, or is still waiting for it |
| EntityWriter.Writer.GetOrCreate | internal/frost/writer.go:90-117 | an id that comes back names the entity on the server; a caller left waiting has a flight of its key to wait for; errors are told apart |
| Session.OnlyTheRejectedTokenIsDropped | internal/adapters/sulo/client.go:135-141 | a token goes only when a goroutine that saw a 401 with its generation reports it; a late invalidate drops nothing |
| Session.LoginsAreBounded | internal/adapters/sulo/client.go:117-131 | logins equal dropped tokens plus the live one, and are at most one more than the distinct rejected generations |
| Session.TwoRequestsTwoTokens | internal/adapters/sulo/client.go:205-234 | no get sends a third request, and a retry holds a later generation than the one rejected |
| Session.RunKeepsInv | internal/adapters/sulo/client.go:117-141 | tokens, generations and every goroutine's place fit together in every reachable state |
| Session.Client.Session | internal/adapters/sulo/client.go:117-131 | the cached token or a fresh login's, with its generation, or the login's error |
| Session.Client.Invalidate | internal/adapters/sulo/client.go:135-141 | the caller goes on to its retry; the reported generation is never handed out again, and the caller has dropped no other one's token |
| Session.Client.Do | internal/adapters/sulo/client.go:216-259 | only a first-attempt 401 is retried; a request that cannot be built ends the get permanently without being sent, everything else by its status |
| Session.Client.Get | internal/adapters/sulo/client.go:205-356 | at most two requests, and the last answer decides: data for a parsed 200..299, transient for 429, 500 and above, an unparsed 2xx or a lost reply, permanent for the rest |
| Paging.Paged | internal/adapters/sulo/client.go:281-325 | at most 200 requests; rows of the first list read form a prefix, all of it on a short page; a still list yields exactly its first min(length, max, 200 pages) rows |
| Paging.PageLeavesNoHole | internal/adapters/sulo/client.go:283-318 | a page starts at or before the place where the last one ended, so coverage only extends |
| Paging.ShortPageReadsATail | internal/adapters/sulo/client.go:313-318 | a short-page stop has read exactly a tail of the list as it then stood, with repeats only |
| Paging.PagesReadASlice | internal/adapters/sulo/client.go:281-325 | however paging stops, what was read is a slice of the last list unless it grew by more than had been read |
| Paging.FullIsTheProduct | internal/adapters/sulo/client.go:283-292 | full pages hold pages times page size rows |
| Sulo.ToObservations | internal/adapters/sulo/sulo.go:294-346 | strictly ascending output with the first passing row of each stamp and nothing else |
| Sulo.SortByTime | internal/adapters/sulo/sulo.go:342-344 | a permutation in non-descending order, with no promise on ties |
| Sulo.ExactIsUnique | internal/adapters/sulo/sulo.go:342-344 | the output is determined by the rows, so sort stability cannot matter |
| Sulo.TimesAreExactIff | internal/adapters/sulo/sulo.go:323-326 | the output's times are exactly the passing rows' times if and only if their int64 stamps are distinct |
| Sulo.RecentRowsAreDistinguishable | internal/adapters/sulo/sulo.go:323-326 | that holds whenever now is within 2^64 ns of the cursor |
| Sulo.FirstValueWins | internal/adapters/sulo/sulo.go:323-340 | each published time has the fill level, slot id and stamps of its first passing row in input order |
| Sulo.RepeatsAndOrderDoNotMatter | internal/adapters/sulo/sulo.go:243-246 | with one estimate per instant, repeats and another row order leave the output alone |
| Sulo.LaterRowChangesNothing | internal/adapters/sulo/sulo.go:323-326 | a further row of an instant that already passed changes nothing, wherever it is inserted |
| Sulo.FetchObservations | internal/adapters/sulo/sulo.go:250-290 | a slot id that is no 64-bit number fails before any request, a failed page fails the fetch; otherwise it publishes exactly the passing rows that were paged, none later than now or at or before the cursor; other properties give nothing |
| Sulo.WholeFetchIsAPrefix | internal/adapters/sulo/sulo.go:250-290 | a fetch that ended on a short page is a prefix of the source even if it grew meanwhile |
| Sulo.CutFetchIsAPrefixIff | internal/adapters/sulo/sulo.go:266-268 | a fetch of the newest k rows is a prefix of the source if and only if none of them passes or no passing row with an instant of its own lies behind them |
| Sulo.LimitLosesARow | internal/adapters/sulo/sulo.go:266-268 | a concrete list of two rows and a limit of one |
| Sulo.StampsCollide | internal/adapters/sulo/sulo.go:323-326 | two passing rows 2^64 ns apart, of which one is published |
| Sulo.SlotRoundTrip | internal/adapters/sulo/sulo.go:261-329 | the id that an observation carries parses back to its slot |
| Sulo.SuloCursorNeverPassesClock | internal/adapters/sulo/sulo.go:294-321 | in every run over SULO with a forward clock no cursor passes now |
| Sulo.LateForecastHadMatured | internal/adapters/sulo/sulo.go:294-321 | a row that was a forecast at one instant and is rejected as late at another was passed in between, after it had matured, because of a fetched row |
| SuloRuns.ShortPageIsClean | internal/adapters/sulo/client.go:313-318 | a fetch whose paging ended on a short page cuts nothing off, however the list grew meanwhile |
| SuloRuns.CapIsClean | internal/adapters/sulo/client.go:281-325 | nor does one that ended on a cap, if no unread passing row has an instant of its own and the list grew by no more than was read |
| SuloRuns.SuloRunIsSteady | internal/scheduler/scheduler.go:148-193 | while fetches cut nothing off and rows arrive newest last, every run over SULO meets the gap-freedom hypotheses |
| SuloRuns.NoLevelIsLost | internal/scheduler/scheduler.go:148-193 | hence every instant of the vendor's list between seed and cursor was logged, rejected or refused |
| SuloRuns.PassedRowsStayUnlogged | internal/validator/validator.go:111-115 | an instant that the poll cursor has passed unlogged stays unlogged in every continuation without a push for its stream |
| SuloRuns.CutOffIsNeverLogged | internal/adapters/sulo/sulo.go:266-268 | an instant that the limit cut off is never logged after the cycle has moved the cursor |
| SuloRuns.AnyFutureRowPoisonsTheStream | internal/ingest/ingest.go:101-107 | when a cursor moves over a batch with a row dated after the clock, every later batch dated up to that row is rejected to the last row |
| Chunking.ChunkEnvelopes | cmd/collaborall-reader/run.go:106-141 | non-empty chunks that concatenate to the input, all but the last full |
| Chunking.Newest | cmd/collaborall-reader/run.go:151-159 | a time of the batch that bounds all of them |
| Chunking.MaxPhenomenonTime | cmd/collaborall-reader/run.go:151-159 | the loop computes that time |
| Chunking.EnvelopeOvershoot | cmd/collaborall-reader/run.go:113-127 | with no observation longer than the first, k of them exceed the budget by at most 3(k-1) bytes |
| Chunking.BudgetIsMetIff | cmd/collaborall-reader/run.go:113-127 | an envelope of any k observations meets the budget if and only if the room left by k estimates, and what the observations stay below them, come to 3(k-1) bytes |
| Chunking.FullBudgetIsMetIff | cmd/collaborall-reader/run.go:113-127 | for a full envelope that room is the remainder of the division |
| Chunking.EqualBudgetIsMetIff | cmd/collaborall-reader/run.go:113-127 | a full envelope of equal observations meets the budget if and only if the remainder is at least 3(n-1) bytes |
| Chunking.EnvelopeFitsThePush | internal/api/push.go:24 | the reader's budget stays below 1 MiB once an observation takes 22 bytes |
| Chunking.ReaderBudgetIsNotMet | cmd/collaborall-reader/run.go:103-127 | at the reader's budget every full envelope of equal observations of 3 to 1600 bytes exceeds it |
| Chunking.EnvelopeOverTheBudget | cmd/collaborall-reader/run.go:103-127 | a concrete envelope of 4652 observations of 200 bytes that does |
| Delivery.NothingBelowTheFileCursorIsLost | cmd/collaborall-reader/run.go:57-99 | through failed posts, failed writes and restarts, the file cursor is not ahead of memory and every readable instant from the seed the cursor began with up to it was acknowledged |
| Delivery.CursorsNeverMoveBack | cmd/collaborall-reader/cursor.go:47-71 | the file's cursors never fall, memory's never fall within a process, and the file's never lead |
| Delivery.BaseStaysWithItsCursor | cmd/collaborall-reader/run.go:58-61 | the seed of a cursor changes only with a restart or a cycle that found it unset or zero |
| Delivery.FetchCovers | internal/adapters/collaborall/source/source.go:117-168 | a page leaves out no readable instant up to its newest, ties at the limit counted by time |
| Delivery.FetchIsOrdered | internal/adapters/collaborall/source/source.go:117-168 | a fetch is at most a page long, oldest first, and of rows after the cursor only |
| Delivery.StreamMovesIff | cmd/collaborall-reader/run.go:71-73 | one answered fetch goes on to post if and only if some row of its page is readable; otherwise nothing changes |
| Delivery.AdvanceIsDelivered | cmd/collaborall-reader/run.go:91-97 | once all envelopes are acknowledged the cursor moves over delivered ground only |
| Delivery.RunKeepsInv | cmd/collaborall-reader/run.go:57-99 | both cursors stand on delivered ground in every reachable state |
| ReaderGaps.FirstSeedIsSafeWhenSeededOnce | cmd/collaborall-reader/run.go:58-61 | if only one cycle of the stream ever looked back, every readable instant from the first seed up to the file cursor was acknowledged |
| ReaderGaps.FirstSeedLosesARow | cmd/collaborall-reader/run.go:58-61 | a failed first post and the next look-back leave a readable row behind the file cursor unacknowledged |
| ReaderGaps.SeedIsSafeIff | cmd/collaborall-reader/run.go:58-99 | no continuation skips a readable instant between a seed and either cursor if and only if none is skipped yet and the cursor is set in memory and in the file |
| ReaderGaps.BaseHasItsCycle | cmd/collaborall-reader/run.go:58-61 | the base of every cursor is the since of the cycle in the run that set it when it was unset |
| ReaderGaps.UndecodablePageStopsTheStream | cmd/collaborall-reader/run.go:71-73 | cursors that stand before a full page of undecodable rows never move again, through any cycles, arrivals, failures and restarts |
| ReaderGaps.UndecodablePageStopsIff | cmd/collaborall-reader/run.go:58-73 | no run passes such a page if and only if the stream has a cursor in memory and in the file |
| ReaderGaps.LookBackPassesAPage | cmd/collaborall-reader/run.go:58-73 | a concrete stream without a cursor that the page blocks in one cycle and not in the next |
| ReaderGaps.RestartPassesAPage | cmd/collaborall-reader/run.go:58-73 | a concrete stream whose cursor never reached the file, freed by a restart |
| Reader.CursorStore.Get | cmd/collaborall-reader/cursor.go:40-44 | the cursor, or the zero time |
| Reader.CursorStore.Advance | cmd/collaborall-reader/cursor.go:47-71 | memory moves forward only; the file becomes the whole map or stays; neither ever leads or falls back |
| Reader.Cycle.FetchObservations | internal/adapters/collaborall/source/source.go:117-168 | one ordered page after the cursor with undecodable rows skipped, or an error |
| Reader.Cycle.Post | cmd/collaborall-reader/sink.go:34-62 | a 2xx acknowledges exactly this envelope; anything else acknowledges nothing |
| Reader.Cycle.PostAll | cmd/collaborall-reader/run.go:75-93 | success means every observation was acknowledged; the first failure ends the stream |
| Reader.Cycle.RunStream | cmd/collaborall-reader/run.go:57-99 | the cursor moves only after everything fetched was acknowledged, to its newest time, and alone; the totals grow by the responses |
| Reader.Cycle.RunOnce | cmd/collaborall-reader/run.go:39-101 | every discovered stream has its turn, once and in order, despite failures; an error is reported if and only if the listing, a fetch or a post failed; totals are those of the responses, cursors only grow, and nothing below the file's is lost |
| Reader.Cycle.RunStreams | cmd/collaborall-reader/run.go:57-100 | the loop over the discovered streams: each has its turn in order, totals add up, cursors only grow, and those of other streams stay |
| Reader.Cycle.PostStream | cmd/collaborall-reader/run.go:75-99 | all envelopes, then the cursor; nothing moves after a failed post |
| Reader.TallyIsTheSum | cmd/collaborall-reader/run.go:87-90 | the totals are one post and the accepted, skipped and rejected counts of each response |
| Reader.Cycle.Restart | cmd/collaborall-reader/cursor.go:21-37 | a new process starts from the file, and its history is the old one plus a crash |
| Reader.NextEnvelope | cmd/collaborall-reader/run.go:131-139 | each envelope holds the observations that follow those of the ones before |
| Push.KeysCollideIff | internal/api/push.go:193-195 | two Things can share a stream key if and only if one id followed by the separator starts the other |
| Push.KeysCollide | internal/api/push.go:193-195 | a concrete pair of keys that collide |
| Push.Group | internal/api/push.go:161-170 | each group is the batch's rows of its key in order, and the rest is reported unknown in order |
| Push.GroupMembers | internal/api/push.go:161-170 | a group has the key's rows and no others |
| Push.GroupIsOrdered | internal/api/push.go:161-170 | a group is the batch at the ascending places of exactly the key's rows |
| Push.PassOneMore | internal/api/push.go:180-181 | one more group adds to accepted the rows that pass its own validation |
| Push.FailOneMore | internal/api/push.go:182-187 | and to the report its rejected rows, each with raw id and rule |
| Push.EachRowOnce | internal/api/push.go:161-190 | when each known row's group was called, every row of the batch is accepted or reported exactly once |
| Push.PushServer.Register | internal/api/push.go:134-157 | fails if and only if the store fails at a declared pair; otherwise the known keys are exactly the declared ones, each with the id of a pair that has that key |
| Push.PushServer.IngestGroup | internal/api/push.go:172-188 | accepted and rejected are exactly the group's passing and failing rows under a clock of the call, skipped is what it found in the log, and without a transient error all are dealt with |
| Push.PushServer.IngestGroups | internal/api/push.go:172-190 | any iteration order; the response sums up the groups that got through, all of them on success; it stops only at a group whose call failed, or whose stream has a cycle open |
| Push.PushServer.IngestBatch | internal/api/push.go:128-191 | on 202 accepted counts the known rows that pass their own group's validation, and the report is, as a multiset, the unknown rows and those that break a rule, each with raw id and reason; a 503 has a failed upsert, a failed call or an overlap behind it |
| Push.CalledRowIsDealt | internal/ingest/ingest.go:87-157 | every row of a group that was called is logged or refused if it passes there, and rejected otherwise |
| Replay.DroppedIffRefused | internal/ingest/ingest.go:323-327 | unless a target that takes the key still lacks it, an observation is dropped exactly when some target refuses it |
| Replay.CleanLog | internal/api/push.go:175-190 | without open mixed keys a request that goes through adds to the log exactly the keys that no target refuses, each with its first value |
| Replay.ResendIsClean | internal/api/push.go:172-190 | from any state without open mixed keys, any failures followed by a 202 leave the clean run's log |
| Replay.OpenMixedIsLostByOneFailure | internal/ingest/ingest.go:323-334 | after a failed INSERT of an open mixed key no requests of any content, failed or not, ever log it |
| Replay.OpenMixedIsLoggedCleanly | internal/ingest/ingest.go:289-334 | a clean run logs such a key |
| Replay.ResendIsCleanIff | internal/api/push.go:172-190 | from any state of log and targets, resending converges to the clean run if and only if every mixed key of the batch is logged already or held by every target that takes it |
| PushReplay.OrdersAreArrangements | internal/api/push.go:175 | any two iteration orders of the groups keep the first observation of every key |
| PushReplay.ResentBatchIsCleanIff | internal/api/push.go:128-191 | the same equivalence for a whole batch whose requests break off anywhere and iterate in any order |
| WriteRefines.WriteIsReplayWrite | internal/ingest/ingest.go:271-335 | an answered write of the protocol leaves servers and log where the replay model says, with the observation's own value |
| WriteRefines.GroupIsReplayProcess | internal/ingest/ingest.go:126-149 | a whole group whose calls are answered is written as the replay model says |
| WriteRefines.BreakIsReplayBreak | internal/ingest/ingest.go:271-335 | wherever the replay model breaks a write off, the protocol can break off with the same outcome on servers and log |
| WriteRefines.FirstTargets | internal/ingest/ingest.go:289-321 | target by target, the protocol's replies and copies are the replay model's |
| Watchdog.Service.Tick | internal/watchdog/watchdog.go:114-147 | one tick against the store, with every failure point, is the tick function |
| Watchdog.EffectiveIff | internal/watchdog/watchdog.go:114-147 | a tick counts when both reads succeed and its decision is stored, or nothing needs storing |
| Watchdog.UnknownStatusHeals | internal/watchdog/watchdog.go:161-186 | an unknown stored status becomes ok without an alert |
| Watchdog.IsStaleIsExact | internal/watchdog/watchdog.go:149-156 | floor division decides exactly stale > max(1, total/100) over the reals |
| Watchdog.StatusCountsStaleTicks | internal/watchdog/watchdog.go:161-186 | the status is ok, pending or stale exactly when the trailing run of stale ticks is 0, 1 or more |
| Watchdog.StampsAreTrue | internal/watchdog/watchdog.go:161-186 | the stored stamps are the instants of the last status change and of the last crossing |
| Watchdog.CrossingsAlternate | internal/watchdog/watchdog.go:161-186 | the stored state enters and leaves stale in strict alternation |
| Watchdog.FiresAreCrossingsIff | internal/watchdog/watchdog.go:132-146 | every crossing is alerted if and only if no committed crossing write looked failed |
| Watchdog.FiresAlternateIff | internal/watchdog/watchdog.go:132-146 | alerts alternate, starting with stale, if and only if an even number had been lost before each one sent |
| Watchdog.FiresAlternate | internal/watchdog/watchdog.go:132-146 | so without a lost alert they alternate, and their number says whether the state is stale |
| Watchdog.AlternatesAlthoughItLoses | internal/watchdog/watchdog.go:132-146 | concrete runs that lose the last alert, or a pair, and alternate all the same |
| Watchdog.LostReplyStartsWithRecovered | internal/watchdog/watchdog.go:132-136 | with one, the first alert ever can be "recovered" |
| Watchdog.FailedWritesAreSilent | internal/watchdog/watchdog.go:132-136 | ticks whose write failed uncommitted can be removed from a run without a trace |
| Dummy.FillLevelAt | internal/adapters/dummy/dummy.go:162-175 | every reading lies in [0, 100), under wrapping int64 and Go's remainder |
| Dummy.FillLevelIsSawtooth | internal/adapters/dummy/dummy.go:162-175 | the reading is the wrapped instant's place in the twelve-hour cycle |
| Dummy.PeriodicIff | internal/adapters/dummy/dummy.go:162-175 | it repeats after twelve hours if and only if no wrap falls between |
| Dummy.WrapBreaksThePeriod | internal/adapters/dummy/dummy.go:162-175 | a concrete instant of 2262 whose reading does not repeat |
| Dummy.FetchObservations | internal/adapters/dummy/dummy.go:91-126 | one reading per tick, oldest first, cut at the limit |
| Dummy.TicksAreTheMultiples | internal/adapters/dummy/dummy.go:106-111 | the ticks are exactly the multiples of the cadence in (since, now], ascending |
| Dummy.CatchUpIsTheUnlimitedFetch | internal/adapters/dummy/dummy.go:101-126 | limited fetches chained at their last tick deliver the unlimited one, with no repeat and no gap, however the clock moves between them |
| Dummy.ValidatorKeepsAll | internal/validator/validator.go:89-118 | the validator keeps every generated reading |
| Dummy.FetchIsAPrefix | internal/adapters/dummy/dummy.go:91-126 | a fetch, cut or not, leaves out no tick up to its newest |
| Dummy.DummyRunIsOrdered | internal/adapters/dummy/dummy.go:91-126 | in every run the adapter meets the gap-freedom hypotheses |
| Dummy.NoTickIsLost | internal/scheduler/scheduler.go:148-193 | hence every cadence boundary between seed and cursor was logged, rejected or refused, and no cursor passes the clock |
| OData.LiteralRoundTrip | internal/frost/client.go:94-96 | scanning the escaped literal by section 5.1.1.6.1 of OData 4.0 Part 2 returns the string and stops behind it |
| OData.FilterIsInjective | internal/frost/client.go:110-111 | distinct names give distinct filters |
| OData.UnescapedRoundTripIff | internal/frost/client.go:94-96 | without escaping that works if and only if the name has no quote |

## Left out

- Ingest.Processor.ProcessStream: the per-target counters, the freshness gauge and the bookkeeping of STA ids (internal/ingest/ingest.go:244-260) are not modelled; they influence nothing else.
- Ingest.Scheduler.RunDatastreamCycle: the discovery loop around it (internal/scheduler/scheduler.go:94-139) only lists and starts cycles and is not modelled; a Thing listed twice would start two cycles of one stream.
- Store.PGStore.Record: Postgres keeps microseconds, so two times within one microsecond share a log row there and not in the model.
- EntityWriter.Writer.GetOrCreate: a panicking flight and a cancelled context are not modelled; a caller left waiting is reported as blocked.
- Session.LoginsAreBounded: the generation is unbounded, so the wrap of the uint64 after 2^64 logins is not modelled; login and the mutex around it are one step.
- Chunking.EnvelopeOvershoot: observations that JSON cannot encode (a NaN result, a year past 9999), for which the length reads as 0, are not modelled.
- Delivery.FetchCovers: a source row dated by an interval is represented by its start, and the page is one request; GetAll's link following is not part of this model.
- Delivery.NothingBelowTheFileCursorIsLost: the seed is the one the cursor began with, not the stream's first (module ReaderGaps); rows that appear later with an older time than the newest source row are outside the hypothesis; the reader never sees them once its cursor has passed.
- GapFree.OneFutureRowPoisonsTheStream: a batch of one row, as the run that shows it; SuloRuns.AnyFutureRowPoisonsTheStream covers batches of any size.
- Completion.CycleCompletes: a row that the log had before the cycle is skipped, so what the targets hold of it is what LogMeaning says.
- Replay.ResendIsCleanIff: 409 answers, write-log purges and other writers between the requests are not part of the replay model.
- Push.PushServer.Register: the upserts' effect on the tables is not part of a run; streams may be present from the start.
- Push.PushServer.IngestGroups: a group whose stream another request has open is not gone on with; the code does not notice the overlap.
- Push.PushServer.IngestBatch: such an overlap is answered with a 503, which the code does not do.
- Store.PGStore.Upsert: the row id is the caller's argument; its allocation and the unique (thing, property) pair behind it are not modelled.
- Environment.Outside.ResolveTargets: the six upserts of a target are one step with one outcome; that the ids are the stream's own is required of the environment, and Ownership.OwnersExist shows that the upserts meet it.
- WriteRefines.BreakIsReplayBreak: a broken-off write is compared at the instant being written; the rows of the group before it are those of GroupIsReplayProcess.
- Sulo.ToObservations: the text of the raw observation id and the drop counters, which are only logged, are not modelled.
- SULO discovery and its slots cache (internal/adapters/sulo/sulo.go:149-230): the cache only decorates metadata, and ids pass through it unchanged.
- Dummy.FetchObservations: overflow of time.Time and the FNV phase offset are not modelled; the phase is arbitrary.
- The MQTT write path (internal/frost/writer.go:193-202): a publish confirms no persistence, so at-most-once does not follow from it.
- HTTP, TLS, authentication headers, JSON and URL building: each call is reduced to its outcome class and effect.
- OMS payloads and vendor DTO mapping: only the agreement of names between lookup and payload matters, and it is immediate.
- Configuration, logging, metrics, the admin server, the adapter registry and the MQTT client: plumbing.
- ToBatch/FromBatch, Retry-After parsing and the flexible number decoders: true but easy.
- Overlapping push requests for one stream, and server effects that land after a client timeout: the code does not exclude duplicates there.
