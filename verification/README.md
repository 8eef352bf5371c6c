# Verified model of the incremental procurement connectors

Each publisher connector of the repository is a resumable state machine. It takes a persisted
cursor and a bounded slice of what the publisher lists, folds that slice into per-lot states, and
emits observations only once it has caught up. A consumer table folds the observations. This
project models those machines in Dafny and proves what they are for: a catch-up cut into pieces
ends where one pass ends, re-reading an overlap changes nothing, nothing is skipped under failures,
and the consumer shows exactly the open lots although only changes and tombstones are sent. The
interval, page and window fetchers, the cycle check of the capability registry, the decision cache,
the JWT key cache and the evaluation ledger are modelled beside them.

Run `dafny verify dfyconfig.toml` in this directory to check everything.

## Files

| file | what it holds |
|---|---|
| `Common`, `Sorting`, `Lifecycle` | shared vocabulary, ascending listings and a stable sort, the consumer table |
| `AustriaState`, `AustriaCatchup`, `AustriaRuns` | state merge and alias identity, one budgeted sweep, reconcile and whole runs |
| `AustriaBudget`, `AustriaCycle`, `AustriaExactness`, `AustriaSchedules` | conservation of work, chains of sweeps, when truncated checkpoints suffice, chains of whole runs |
| `AustriaNoSkip`, `AustriaHistory`, `AustriaProgress`, `AustriaIdentity` | failures in one catch-up, no gap over whole histories, when a run raises, alias ownership |
| `AustriaVersions`, `AustriaView` | which version of a lot survives and what is said of it, the consumer view |
| `GermanyLots`, `GermanyRuns`, `GermanyExpiry`, `GermanyCatchup`, `GermanyView` | event-sourced lots in three maps, runs, what pruning an expired lot changes, chunk independence, the view |
| `GermanyHistory`, `GermanyVerdicts` | which days are read and what a stored lot is made of, what a run says and stores of every lot |
| `ItalyLots`, `ItalyRuns`, `ItalyCatchup`, `ItalyView`, `ItalyForgetting`, `ItalyRepetition` | notice versions, runs that forget, chunk independence, the view, when forgetting shows, which data keep it silent |
| `ItalyHistory` | what a lot is in the publisher's own fields, which days are read, what decides over chains of runs |
| `EstoniaMonths`, `EstoniaLots`, `EstoniaRuns`, `EstoniaCatchup`, `EstoniaView` | months and their text, monthly files, runs, chunk independence, the view |
| `EstoniaHistory` | what a month and a range of months make of a lot, which months are read, what a run says and keeps |
| `Poland`, `Socrata`, `OcdsWindows` | interval splitting, keyset pages, opaque-token windows |
| `CapabilityGraph`, `DecisionRefresh`, `DecisionFate` | cycle search, decision cache, its outcome row by row in full |
| `EvaluationLedger`, `EvaluationStages` | evaluation periods; stages, extensions, value shown, payment and access |
| `JwtKeyCache`, `JwtKeyAge`, `JwtAnswers` | single-flight key refresh, how old a returned key can be, what each request is owed |

## Conventions of the model

- `Text` is the rank of a string in code-point order, 0 being the empty string. The program only
  compares and copies these strings. Canonical UTC stamps compare as texts the way they compare as
  times. Instants are integers in microseconds, and whole-second truncation is explicit. Estonian
  month texts, which the program builds and parses, are real strings.
- A method stands for the program's loop and is proved equal to a function of its inputs. The
  lemmas then state what that function means. A run that raises is `Err` and changes neither cursor
  nor table; any other run commits its cursor and its observations together.
- The latest closed day (`target`) and the clock (`now`) are separate inputs of a run, so every
  result holds for every relation between the two.
- What a publisher answers is an input: the events of a day, the notices of a month, the items of a
  list with the states their notices parse to, the rows of a table. Where failures matter, each run
  may get a different answer or none.
- Dictionaries are visited in ascending key order. The program sorts keys where the order is
  visible, except in the German and Italian finalisation loops, where it is insertion order and
  every lot is observed at most once per loop.
- The Austrian `log`, the chronicle of a history, the responses recorded with an OCDS window, and
  the key cache's `starts`, `failures`, `successes`, `published`, `answers` and dates are history
  variables: nothing in the model reads them to decide anything.

## Where the code does less than one might expect

Wherever a property fails, a lemma shows it at a concrete input, and the exact condition is proved beside it.

- Germany prunes recently closed lots after every run with the cutoff of the new target. After an
  outage longer than one run, a lot that has expired meanwhile is forgotten by the first chunk,
  while one long run would still know it: `ExpiredLotIsLost`. `ChunkIndependence` holds for every
  cursor with the exact exception, and `HarmlessExactly` says per lot when forgetting shows: by its
  visibility, its last event and, where a notice follows, its first publication.
- Italy repeats a caught-up run without a trace if and only if no lot that the run dropped rises
  from its own entries on the overlap days: `ItalyForgetting.ForgettingIsSafe`, for every cursor and
  whatever the versions list. A version that lists a lot first as closed and then as open can make
  one rise (`SplitVersionReturns`), and so can a first run that looks back less than the overlap
  (`ShortLookbackRises`). Where later days carry later stamps, and the cursor was built from them,
  nothing else does: `ItalyRepetition.ConsistentDataIsRepeated`.
- Austria stores checkpoints with whole-second precision. `CompletesUnderEveryBudgetIffExact` proves
  that a frozen catch-up completes under every budget if and only if every in-window item except
  the last of each list has a whole-second modification time. Otherwise a budget of one never
  completes, because the item is selected again after its own checkpoint (`OwnCheckpoint`);
  `HalfASecondBlocksTheList` is such a list. No item is skipped in either case.
- An OCDS run can lower the mark. `MarkProgress` gives the exact condition for every mark and clock;
  `LongOverlapDropsTheMark` and `EarlyClockDropsTheMark` are the two ways it fails.
- The decision cache takes over a decision made before the first fingerprint if it comes from the
  current rule and is no older than the profile. If the opportunity itself changed in between, the
  outdated decision stays: `SeedingCanKeepAnOutdatedDecision` is a concrete case, and
  `LatestIsDirectExactly` says for every row when the decision equals direct evaluation.
- The JWT verifier can return a key that is too old: on the fast path an expired one, otherwise one
  older than both of its limits, each measured at the last clock reading the answering thread made.
  It happens in exactly two ways: the fast path reads the keys and their expiry at different moments
  (`WithdrawnKeyIsReturned`), and a request that finds the generation moved under the lock checks no
  age (`UncheckedKeyIsReturned`). `JwtKeyAge.AnswerAge` is the if-and-only-if over every step that
  returns a key. How long a thread is held up after its last reading is not bounded by anything.
- Germany can send a second tombstone for a lot that is no longer on show, where Italy and Estonia
  cannot: `GermanyView.RepeatedTombstones` says exactly when.
- `evaluation_policy.py:131` compares the value status with `IN (NULL, 'EXPOSURE_PENDING')`, which
  in SQL never matches a missing status. The model does what the statement does: a missing status
  stays missing.

## Model

| member | source | states |
|---|---|---|
| Lifecycle.LifecycleTable.Persist | opportunity_lifecycle.py:49-90 | the table becomes the fold of the records in order, and the count returned is the number of records that belong to the lifecycle protocol |
| Lifecycle.LastRecordWins | opportunity_lifecycle.py:49-90 | the row of a lot has the actionability, status and reason of the last record that names it, that record's update stamp or else its publication stamp, and the observation time |
| Lifecycle.UntouchedRowStays | opportunity_lifecycle.py:49-90 | a lot that no record names keeps its row, or stays without one |
| Lifecycle.FoldedInBatches | opportunity_lifecycle.py:49-90 | persisting two batches one after the other is persisting their concatenation |
| Lifecycle.ExplicitRecordsAreCounted | opportunity_lifecycle.py:49-90 | the number returned is that of the records with an explicit actionability, a source and an identifier |
| AustriaState.MergeState | austria_kerndaten.py:443-465 | the loop over both alias lists computes the merge whose meaning AustriaVersions.MergingOneVersion states |
| AustriaVersions.MergingOneVersion | austria_kerndaten.py:443-465 | merging one more version leaves what the last of the greatest-stamped versions says, the earliest publication, all aliases and no others, visible if any version was |
| AustriaVersions.FoldedLot | austria_kerndaten_incremental.py:325-336 | after any fold each lot is made in this way of its earlier state and the states stored under it |
| AustriaVersions.NewestVersionDecides | austria_kerndaten_incremental.py:116-181 | when a catch-up completes, after any history with any failures, each lot is tracked, announced or withdrawn, with its status and stamps, by the newest of its tracked version and those its notices yielded meanwhile |
| AustriaVersions.UnnamedLotIsQuiet | austria_kerndaten_incremental.py:121-143 | a shown lot that no notice named, with its deadline ahead, is announced again if and only if its alias list is not in merged form |
| AustriaVersions.UnnamedLotIsNotAnnouncedAgain | austria_kerndaten_incremental.py:116-181 | over any history of parsed notices such a lot is not announced again and its state stays as it was |
| AustriaState.LegacyAliasIndex | austria_kerndaten.py:468-491 | the index maps exactly the aliases with one legacy owner, each to that owner |
| AustriaState.FoldNotice | austria_kerndaten_incremental.py:325-336 | all states of a notice are folded with the index rebuilt after each, as the per-state fold says |
| AustriaState.KnownAliasMergesIntoItsOwner | austria_kerndaten.py:494-509 | under unique ownership, a legacy notice with a known alias takes the owner's key and procedure and merges into it however its other fields changed, and no other lot changes |
| AustriaState.NewAliasKeepsItsIdentity | austria_kerndaten.py:494-509 | a state of the other family, or with an unowned alias, is not re-anchored |
| AustriaState.FoldKeepsOwnership | austria_kerndaten_incremental.py:325-336 | folding a state keeps ownership unique and moves no alias that already has an owner |
| AustriaState.OwnershipIsStable | austria_kerndaten_incremental.py:325-336 | the same through every state of a notice |
| AustriaIdentity.SweepFolds | austria_kerndaten_incremental.py:286-352 | what a sweep leaves pending is a fold of states that the publishers' notices yield, and of nothing else |
| AustriaIdentity.AliasesKeepOneOwner | austria_kerndaten_incremental.py:262-386 | over any history of runs, failures included, every legacy alias has at most one owner in the tracked and in the pending states |
| AustriaCatchup.SweepBook.SelectItems | austria_kerndaten_incremental.py:301-311 | the filter and sort over a list compute the selection whose meaning SelectionMeans states |
| AustriaBudget.SelectionMeans | austria_kerndaten_incremental.py:301-311 | exactly the in-window items beyond the checkpoint are selected, in strictly increasing order when keys are distinct |
| AustriaCatchup.SweepBook.FoldBatch | austria_kerndaten_incremental.py:313-344 | a batch is folded up to its first failing item, which is counted as an error |
| AustriaCatchup.SweepBook.VisitList | austria_kerndaten_incremental.py:287-352 | one list: skipped when done or out of budget, abandoned on invalid bounds, otherwise consumed; an unreachable list only counts an error |
| AustriaCatchup.SweepBook.SweepLists | austria_kerndaten_incremental.py:286-352 | the whole nested loop over the lists equals the sequence of their visits |
| AustriaBudget.OwnCheckpoint | austria_kerndaten_incremental.py:106-113 | a stored checkpoint lies below the item it was made from exactly when truncation lost a fraction, and never above it |
| AustriaBudget.ExactCheckpointDropsThePrefix | austria_kerndaten_incremental.py:301-313 | after the first k items of a selection, an untruncated checkpoint selects precisely the others |
| AustriaBudget.VisitConserves | austria_kerndaten_incremental.py:287-352 | a visit moves a prefix of a list's remaining work from "to do" to "folded", loses nothing, and finishes the list if the budget covers it |
| AustriaBudget.SweepConserves | austria_kerndaten_incremental.py:286-352 | the same for a sweep over all lists under the one global budget |
| AustriaCycle.CycleConserves | austria_kerndaten_incremental.py:286-352 | a chain of sweeps folds exactly the first min(total budget, work) items of the remaining work |
| AustriaCycle.FinishedChainFoldedEverything | austria_kerndaten_incremental.py:286-352 | whatever the budgets, a finished chain has folded all remaining work, each item once and in order, and the pending states are the fold of it |
| AustriaCycle.FinishesInTime | austria_kerndaten_incremental.py:286-352 | under a constant budget B, N remaining items are finished after floor(N/B)+1 runs |
| AustriaCycle.WorkHolds | austria_kerndaten_incremental.py:301-311 | the remaining work is every in-window item beyond its unfinished list's checkpoint, and nothing else |
| AustriaCycle.WorkIsOrdered | austria_kerndaten_incremental.py:286-313 | the work is ordered by address, modification time and item id, without repetition |
| AustriaExactness.NeverCompletes | austria_kerndaten_incremental.py:313-349 | a list with a fractional item before its last one is never finished by runs of budget one |
| AustriaExactness.CompletesUnderEveryBudgetIffExact | austria_kerndaten_incremental.py:286-352 | a newly frozen catch-up completes under every budget if and only if all in-window items but each list's last have whole-second times |
| AustriaExactness.HalfASecondBlocksTheList | austria_kerndaten_incremental.py:313-349 | a concrete list of two items, the first modified at a half second, that runs of budget one never finish |
| AustriaNoSkip.NothingIsSkipped | austria_kerndaten_incremental.py:286-352 | over any runs with arbitrary list and item failures and changing lists, every in-window item that is listed throughout and lies at or below a checkpoint, or in a finished list, was folded; pending is the fold of the log |
| AustriaNoSkip.NewCatchupSkipsNothing | austria_kerndaten_incremental.py:217-245 | a freshly frozen catch-up satisfies that invariant for any listing |
| AustriaHistory.HistorySkipsNothing | austria_kerndaten_incremental.py:217-386 | over any history of whole runs, with any failures and catalogues and lists that grow: if items are listed at most a delay after their modification time, and the overlap is no shorter, every item of a list from the start of its first window to that delay before its stored stamp was folded in a committed run, and later ones lie in the next window |
| AustriaHistory.WindowsAreTimed | austria_kerndaten_incremental.py:217-245 | over any history the first window of a list starts the look-back before a run that found it, and every stored stamp is the instant of a run, in whole seconds |
| AustriaProgress.RunRaisesExactly | austria_kerndaten_incremental.py:247-372 | a run raises if and only if cursor or horizon is over five minutes ahead, there is nothing to freeze or read, or work is left and every unfinished list is unreachable, unreadable or stuck at its first item |
| AustriaHistory.NothingIsReleasedMeanwhile | austria_kerndaten_incremental.py:354-372 | from before a catch-up is frozen until it completes, whatever runs follow, table, tracked states and mark stay unchanged |
| AustriaRuns.Reconcile | austria_kerndaten_incremental.py:116-181 | the loop that edits the tracked states and appends observations equals the per-lot reconcile applied to every key of both maps |
| AustriaRuns.AustrianConnector.FetchIncremental | austria_kerndaten_incremental.py:262-386 | a run equals its specification: future cursor and invalid horizon checks, freeze or resume, sweep, then store, raise or reconcile |
| AustriaRuns.NothingIsReleasedEarly | austria_kerndaten_incremental.py:354-386 | no observation, tracked change or mark leaves a run before every list is done |
| AustriaSchedules.FreezingIsResuming | austria_kerndaten_incremental.py:273-279 | the run that freezes a catch-up behaves as if the frozen catch-up had been stored before it |
| AustriaSchedules.ChainReachesTheFinalOutcome | austria_kerndaten_incremental.py:262-386 | a completing chain of error-free runs returns the one final outcome fixed by the frozen cursor, the lists and the completing instant |
| AustriaSchedules.ScheduleDoesNotMatter | austria_kerndaten_incremental.py:262-386 | that outcome, observations and cursor, is what one run with room for all the work returns at that instant |
| AustriaSchedules.ChainCompletes | austria_kerndaten_incremental.py:262-386 | error-free whole runs of budget B over N items complete within floor(N/B)+1 runs |
| AustriaView.ReconcilingOneLot | austria_kerndaten_incremental.py:121-179 | after a reconcile, tracked state and consumer row of a lot agree again, whatever the clock did since the last one |
| AustriaView.ViewIsExact | austria_kerndaten_incremental.py:116-181 | after any history of runs the lots on show are exactly the tracked lots whose deadline was valid and in the future at the last completed reconcile, each with its current content |
| GermanyLots.LotBook.ApplyEvents | germany_doe.py:721-755 | raises exactly on an event without identity; otherwise the three dictionaries become the fold of the events |
| GermanyLots.EachLotAlone | germany_doe.py:721-755 | the three maps stay disjoint and each lot evolves through its own events only |
| GermanyLots.EventLoopRefinesHistory | germany_doe.py:427-488 | after key-sorted events with distinct keys per lot: a lot exists only if a notice was seen, its content is its greatest-key notice's, its first publication the least of its notices', its map that of its greatest-key event |
| GermanyLots.OverlapIsIdempotent | germany_doe.py:721-755 | re-reading any part of a sorted feed that was already applied changes none of the three maps |
| GermanyRuns.GermanConnector.FinalizeClosed | germany_doe.py:757-773 | one tombstone for each visible closed lot not yet announced, which is then marked as announced |
| GermanyRuns.GermanConnector.FinalizeTracked | germany_doe.py:775-809 | the observations and survivors of the tracked lots are those of the per-lot rule, each lot once |
| GermanyRuns.GermanConnector.PruneRecentlyClosed | germany_doe.py:627-635 | exactly the recently closed lots older than the retention are dropped |
| GermanyRuns.GermanConnector.FetchIncremental | germany_doe.py:811-859 | a run equals its specification, whose days FirstRunReads and LaterRunReads state and whose outcome RunJudges states |
| GermanyHistory.FirstRunReads | germany_doe.py:811-846 | a run without a cursor applies the days target - lookback + 1 to min(target, target - lookback + maxDays), and no others |
| GermanyHistory.LaterRunReads | germany_doe.py:811-846 | a run from a cursor applies the days completed + 1 - overlap to min(target, completed - overlap + maxDays), and no others |
| GermanyHistory.StoredLotIsItsHistory | germany_doe.py:721-859 | over any chain of runs from no cursor over the same days, a lot that no run dropped is stored as the summary of its own events from the first day of the look-back to the day completed; if the overlap is longer, a lot the first run found no notice of goes back to the overlap's first day |
| GermanyHistory.DroppedExactly | germany_doe.py:627-635 | a run drops a held lot if and only if it is caught up and the deadline is over, or the closing is past retention |
| GermanyVerdicts.RunJudges | germany_doe.py:757-859 | a run behind says nothing; a caught-up one announces, withdraws, keeps, marks or drops each lot as its state calls for, with status and stamps |
| GermanyCatchup.ChunkExtendsTheFeed | germany_doe.py:820-846 | a chunk that re-reads overlap days leaves the maps of the feed read once up to its last day |
| GermanyCatchup.RetainedChunks | germany_doe.py:811-859 | while nothing held is past retention, catching up in runs of limited length that re-read the overlap gives the maps, observations and errors of one long run |
| GermanyCatchup.ChunkIndependence | germany_doe.py:811-859 | for every cursor, chunks and one long run agree if and only if each lot that the first chunk prunes as expired ends alike remembered and forgotten, or both are refused |
| GermanyCatchup.QuietExpiryIsHarmless | germany_doe.py:627-635 | that condition holds if no later event names a pruned lot |
| GermanyCatchup.ExpiryIsHarmlessExactly | germany_doe.py:627-635 | with distinct keys per lot, the condition is a check of each pruned lot's stored state against its own later events |
| GermanyCatchup.ExpiredLotIsLost | germany_doe.py:627-635 | a concrete cursor and feed on which chunks lose a lot that one long run reopens |
| GermanyExpiry.EachLotHeld | germany_doe.py:721-755 | for any three maps, disjoint or not, a lot evolves through its own events only |
| GermanyExpiry.HarmlessExactly | germany_doe.py:433-488 | a pruned lot is forgotten without a trace if and only if: without a later notice, nothing acts on it, or it was not visible and ends closed before the cutoff or elapsed; with one, the bodies and visibility do not show |
| GermanyExpiry.NewestNoticeDecides | germany_doe.py:433-464 | when the newest notice acts on the remembered state, the two bodies can differ in the first publication only |
| GermanyExpiry.ForgettingMatters | germany_doe.py:757-809 | pruning before the later events changes the outcome of a caught-up run exactly when it changes it for one pruned lot, unless both are refused |
| GermanyView.FinalShow | germany_doe.py:757-809 | a caught-up run leaves a lot on show exactly when it is tracked with a future deadline |
| GermanyView.EveryRunKeepsLinks | germany_doe.py:811-859 | after every run a lot on show is held with its visibility mark and an unannounced closure, and a mark is only carried by lots published before |
| GermanyView.ViewIsExact | germany_doe.py:811-859 | over any history: caught-up runs leave exactly the future-deadline lots on show, other runs emit nothing, every tombstone is for a lot published as actionable earlier |
| GermanyView.RepeatedTombstones | germany_doe.py:811-859 | over any history, a tombstone is for a lot that is not on show if and only if the last caught-up run left that lot among the recently closed ones |
| GermanyView.SecondResultSpeaks | germany_doe.py:427-488 | a terminal result for a recently closed lot makes it announced again if and only if it is newer and the lot still carries its mark |
| ItalyLots.LotBook.ApplyEvents | italy_anac_pvl.py:468-501 | raises exactly on a nameless event; otherwise both dictionaries become the fold of the events sorted by key, whose meaning ItalyHistory.EventLoopRefinesHistory states |
| ItalyLots.EachLotAlone | italy_anac_pvl.py:468-501 | the two maps stay disjoint and each lot evolves through its own events only |
| ItalyHistory.EventLoopRefinesHistory | italy_anac_pvl.py:468-501 | read from nothing in key order, a lot is known if and only if some entry is of works, active and not obscured; it then holds its newest entry, tracked if that is such an entry and otherwise closed with the status of the failing field, first published at the least stamp since it opened |
| ItalyRuns.ItalianConnector.FinalizeTracked | italy_anac_pvl.py:503-550 | survivors and observations of the tracked lots are those of the per-lot rule |
| ItalyRuns.ItalianConnector.AnnounceClosed | italy_anac_pvl.py:503-550 | one tombstone for each closed lot that was visible, none for the others |
| ItalyRuns.ItalianConnector.FetchIncremental | italy_anac_pvl.py:552-590 | a run equals its specification, closed lots being forgotten when it is caught up |
| ItalyHistory.FirstRunReads | italy_anac_pvl.py:552-590 | a run without a cursor applies the days target - lookback + 1 to min(target, target - lookback + maxDays), and succeeds if and only if they can be read |
| ItalyHistory.LaterRunReads | italy_anac_pvl.py:552-590 | a run from a cursor applies the days completed + 1 - overlap to min(target, completed - overlap + maxDays), and succeeds if and only if they can be read and the cursor is not ahead |
| ItalyHistory.NewestEntryDecides | italy_anac_pvl.py:468-590 | over any chain of runs from no cursor over the same days with a clock that goes on, a caught-up run leaves a lot on show if and only if the newest of its own entries since the first day read is of works, active, not obscured, with a deadline ahead; forgetting in between never shows |
| ItalyHistory.RunJudges | italy_anac_pvl.py:503-590 | a run behind keeps what the days read make of each lot and says nothing; a caught-up one announces, withdraws and keeps each lot as its state calls for, with status and stamps |
| ItalyView.EveryRunKeepsLinks | italy_anac_pvl.py:552-590 | after any runs a lot is on show if and only if it is held with its visibility mark |
| ItalyView.ViewIsExact | italy_anac_pvl.py:552-590 | caught-up runs leave exactly the future-deadline lots on show, others emit nothing, a tombstone always withdraws a lot that is on show, so none is repeated |
| ItalyForgetting.ReadFromNothing | italy_anac_pvl.py:468-501 | a lot read from nothing stays unknown if no entry opens it, and otherwise ends, unannounced, where one entry puts it: the first that opens it if that is of its last version, else the first of that version |
| ItalyForgetting.OverlapOnOneLot | italy_anac_pvl.py:468-501 | re-reading overlap entries, of whatever order of verdicts, leaves a remembered lot alone and brings a dropped one back as lasting, unannounced, if and only if its deciding entry is open and its deadline not over |
| ItalyForgetting.ForgettingIsSafe | italy_anac_pvl.py:552-590 | for every cursor and publisher with days in order: a repetition of a caught-up run fails only if an overlap day cannot be read, and repeats it with the same cursor, no tombstone and the same actionable lots if and only if no dropped lot rises from its own overlap entries |
| ItalyRepetition.CleaningChangesNothing | italy_anac_pvl.py:468-501 | of several entries of one lot and version only the first counts, unless it closes the lot and a later one opens it |
| ItalyRepetition.ConsistentDataIsRepeated | italy_anac_pvl.py:552-590 | when no version lists a lot as closed before open and later days carry later stamps, a run that read the overlap is always repeated without a trace, and one that looked back less if and only if no lot rises from the overlap days it did not read |
| ItalyRepetition.ShortLookbackRises | italy_anac_pvl.py:552-590 | a concrete first run with a lookback of one day and an overlap of two whose repetition tracks a new lot |
| ItalyRepetition.SplitVersionReturns | italy_anac_pvl.py:468-501 | a concrete notice that lists a lot first as supplies and then as works, whose repetition brings the closed lot back |
| ItalyRepetition.RunsStayGrounded | italy_anac_pvl.py:552-590 | the premise of that theorem, that every held lot reflects a first entry of the publisher's, holds along every chain of runs over the same data |
| ItalyCatchup.OverlapIsIdempotent | italy_anac_pvl.py:468-501 | re-reading any part of a sorted feed that was already applied changes neither map |
| ItalyCatchup.ChunkIndependence | italy_anac_pvl.py:552-590 | for every cursor and every schedule of instants and advancing targets, runs of limited length that re-read the overlap end, as soon as one reaches its own target, with the maps, observations and errors of one long run at that instant; as many runs as there are days suffice |
| EstoniaMonths.ShiftComposes | estonia_rhr.py:452-454 | month shifts add up, undo each other on calendar months and always yield a calendar month |
| EstoniaMonths.MonthTextRoundTrip | estonia_rhr.py:466-479 | for every pair of integers, parsing the written month gives it back exactly when the year is at least 2000 and the month is in 1..12, and raises otherwise |
| EstoniaMonths.RangeIsContiguous | estonia_rhr.py:482-487 | a range holds every calendar month between its ends, once each, in order, and no other |
| EstoniaMonths.RangeSplits | estonia_rhr.py:482-487 | cutting a range after n months leaves the range that starts n months later |
| EstoniaLots.LotBook.ApplyPeriod | estonia_rhr.py:577-603 | after a month each lot is its history with its first-seen notices and then its first-seen awards that are of works or of a procedure held after the notices |
| EstoniaLots.EachLotAlone | estonia_rhr.py:343-365 | a lot's state depends on its own events only, in their order |
| EstoniaLots.HistoryOfALot | estonia_rhr.py:343-365 | the last of the greatest-stamped events decides closed or open and the update stamp, the last notice not outdated on arrival gives the content, the first publication never moves, no event makes a lot visible |
| EstoniaLots.MonthLotByLot | estonia_rhr.py:577-603 | the fold of a month is that history for every lot |
| EstoniaHistory.MonthCloses | estonia_rhr.py:577-603 | a lot first noticed in a month ends it closed if and only if one of its counted awards of the month is stamped no earlier than any of its notices |
| EstoniaHistory.MonthsLotByLot | estonia_rhr.py:577-693 | after a range of months a lot is its history with its own entries, month by month |
| EstoniaHistory.RunLotByLot | estonia_rhr.py:605-715 | every run reads the months from initial - 1 before the current one, from overlap before the last completed one or from the stored one; each lot is what its entries of these months make of what the cursor held, and is announced, withdrawn and kept accordingly, with status, stamps and mark |
| EstoniaRuns.EstonianConnector.Finalize | estonia_rhr.py:605-650 | observations and survivors are those of the per-lot rule, in identifier order |
| EstoniaRuns.EstonianConnector.FetchIncremental | estonia_rhr.py:652-715 | a run equals its specification, including an unreadable catch-up month and a rejected month |
| EstoniaCatchup.FirstRunCatchesUp | estonia_rhr.py:681-692 | without a cursor the initial months fit one batch, so the first run is caught up |
| EstoniaCatchup.CaughtUpWhenNothingIsLeft | estonia_rhr.py:685-692 | a run is caught up if and only if its batch holds every pending month |
| EstoniaCatchup.BehindRun | estonia_rhr.py:693-706 | an unfinished run emits nothing, keeps the mark, reads the first months of the range, and stores a text that resumes at exactly the month after them |
| EstoniaCatchup.ChunksAreOnePass | estonia_rhr.py:652-715 | batches chained through the textual cursor, with the calendar moving on meanwhile, end with the observations, tracked lots, mark or failure of a single pass |
| EstoniaCatchup.BatchesConcatenate | estonia_rhr.py:685-704 | the month labels stored along a finished chain concatenate to the full contiguous range, each month once and in order |
| EstoniaCatchup.CatchesUpInTime | estonia_rhr.py:652-715 | with every pending month readable, exactly ceil(months / batch size) runs are needed |
| EstoniaView.ViewIsExact | estonia_rhr.py:605-650 | over any history: a caught-up run tracks exactly the open lots with a future deadline and leaves exactly those on show, other runs emit nothing, a tombstone withdraws a lot that is on show |
| Poland.CheckedListIsComplete | poland_bzp.py:352-374 | as many distinct genuine rows as were counted are all the rows there are |
| Poland.BZPConnector.List | poland_bzp.py:352-374 | nothing is requested for a count of zero; otherwise the list is returned if and only if it passes the count and distinctness checks within the request budget |
| Poland.BZPConnector.FetchInterval | poland_bzp.py:376-391 | returns exactly the notices of the interval, each once, or raises; no page exceeds the maximum; against an answering publisher it succeeds if and only if halving resolves within the depth and its exact request cost fits the budget |
| Poland.QuietSecondsResolve | poland_bzp.py:376-391 | if no second of an interval is too full and the depth allows for halving down to a second, halving resolves |
| Poland.CrowdedInstantNeverResolves | poland_bzp.py:376-391 | if one instant is too full, no depth is enough |
| Poland.Merge | poland_bzp.py:385-390 | merging the halves keeps every notice and drops the duplicates at the midpoint |
| Socrata.PagesAdvance | socrata_adapter.py:148-158 | the where clause after the k-th row of the unpaged result selects exactly the rows that follow it |
| Socrata.NextPage | socrata_adapter.py:185-223 | each page is the next stretch of the unpaged result and ends in a complete cursor that differs from the previous one |
| Socrata.FetchRawIncremental | socrata_adapter.py:185-223 | returns all n rows stamped no earlier than the start, in order, once each, with the last as new cursor, if and only if floor(n / page size) + 1 requests are allowed |
| OcdsWindows.FetchWindow | ocds_cursor_adapter.py:204-230 | a window is returned if and only if a chain of distinct tokens with non-empty pages ends within the page limit, and then with all its releases |
| OcdsWindows.Windows | ocds_cursor_adapter.py:181-202 | both window loops yield the recursive tiling whose meaning TilingTiles states |
| OcdsWindows.TilingTiles | ocds_cursor_adapter.py:181-202 | the windows of a run tile the range from the start point to where they reach, none wider than configured |
| OcdsWindows.TilesLeaveNoGap | ocds_cursor_adapter.py:181-202 | every position of a tiled range lies in one of its windows |
| OcdsWindows.FetchIncremental | ocds_cursor_adapter.py:242-249 | the releases of all windows in order with the end of the last as mark, or an error as soon as one window is incomplete; it succeeds and moves the mark as the step of a chain does |
| OcdsWindows.MarkProgress | ocds_cursor_adapter.py:164-202 | for every mark and clock: a successful run keeps the mark from falling if and only if nothing is due, or the mark is not ahead of the clock and the overlap is at most windows times width; it raises it if and only if the mark is behind the clock and the overlap is less |
| OcdsWindows.LongOverlapDropsTheMark | ocds_cursor_adapter.py:164-202 | a concrete configuration whose overlap exceeds what a run covers and whose mark falls |
| OcdsWindows.EarlyClockDropsTheMark | ocds_cursor_adapter.py:164-202 | a concrete mark ahead of the clock that falls back to it |
| OcdsWindows.RunsLeaveNoGap | ocds_cursor_adapter.py:204-249 | over any chain of runs, whatever the publishers answer, every position from the look-back before the first run that stored a mark to the stored mark lies in a window whose recorded responses are a complete chain of distinct tokens within the page limit |
| CapabilityGraph.CycleSearch.Visit | capability_registry.py:175-188 | a visit restores the path, only adds finished names and cycles, and keeps the finishing order and every reported tuple valid |
| CapabilityGraph.RankedIsAcyclic | capability_registry.py:169-191 | names that all finished after their dependencies contain no closed walk |
| CapabilityGraph.DependencyCycles | capability_registry.py:169-191 | for every registry: empty if and only if it is acyclic, and every tuple is a closed walk along dependencies that repeats only its end point |
| DecisionRefresh.DecisionStore.RecordAccountDecisions | decision_refresh.py:142-251 | a call equals its specification; at return everything is committed, and no commit on the way contains a mark without a decision |
| DecisionRefresh.BudgetGoesToTheFirstStale | decision_refresh.py:194-247 | an account's call writes exactly min(limit, stale rows) new decisions |
| DecisionRefresh.CallFate | decision_refresh.py:184-247 | for each row: fresh ones untouched, seedable ones marked without a new decision, stale ones within the limit scored and marked, the rest untouched |
| DecisionFate.CallInFull | decision_refresh.py:184-247 | the same in full: a row marked with its current inputs is left alone; an unmarked one whose last decision has the current rule and is dated no earlier than the profile is marked and keeps it; of the others the first ones up to the limit are scored, dated and marked |
| DecisionRefresh.StaleAfterCalls | decision_refresh.py:184-251 | after k calls max(0, stale - k * limit) rows of an account are stale |
| DecisionRefresh.CacheConverges | decision_refresh.py:184-251 | once the calls cover the stale rows, all are fresh, each formerly stale row's latest decision is its direct evaluation, every other row keeps its decision |
| DecisionRefresh.QuietExactlyWhenFresh | decision_refresh.py:184-251 | a call writes nothing if and only if every named row of every account is fresh |
| DecisionRefresh.FreshMeansUpToDate | decision_refresh.py:184-251 | over any calls with changing rows, profiles, rules and limits, an honest key stays honest: whenever its row is fresh, its newest decision is the direct evaluation of that row and profile |
| DecisionRefresh.TakenOverUntilScored | decision_refresh.py:206-224 | any other key keeps its newest decision until it is scored again, and is honest from then on |
| DecisionRefresh.LatestIsDirectExactly | decision_refresh.py:206-249 | a converged row's latest decision equals direct evaluation if and only if the row was stale or the decision taken over already agreed |
| DecisionRefresh.SeedingCanKeepAnOutdatedDecision | decision_refresh.py:206-224 | a concrete row whose outdated decision survives any number of calls |
| JwtKeyCache.SingleFlight | auth_context_jwt.py:219-261 | in every interleaving at most one thread refreshes, and whenever the lock is free the generation counts the successful refreshes |
| JwtKeyCache.WaiterBehindASuccessNeverFetches | auth_context_jwt.py:226-241 | a request that fetches with the generation it waited with had no successful refresh in between |
| JwtKeyCache.NoFetchInsideARetryWindow | auth_context_jwt.py:236-247 | no fetch starts within min(30, cache seconds) after any failure, by requests or warm-up |
| JwtKeyCache.FailuresKeepTheKeys | auth_context_jwt.py:241-249 | without a successful refresh the key set never changes |
| JwtKeyCache.AnswersWerePublished | auth_context_jwt.py:219-261 | every key returned belongs to a key set that was the verifier's own |
| JwtKeyAge.AnswerAge | auth_context_jwt.py:219-261 | for every interleaving and every step that returns a key: at the last clock reading of the answering thread the key is too old if and only if, on the fast path, the expiry was past when the keys were read and was renewed before the decision, or, under the lock, the generation had moved and both limits are exceeded; never after a fetch |
| JwtKeyAge.FastAnswerAge | auth_context_jwt.py:221-225 | a key of the fast path had expired at the request's clock reading if and only if the expiry that stood when the keys were read was past |
| JwtKeyAge.LockedAnswerAge | auth_context_jwt.py:227-240 | a key returned under the lock is older than both limits if and only if the generation has moved since the request looked and the stored fetch time is that old |
| JwtKeyAge.FailedFetchAnswerAge | auth_context_jwt.py:241-249 | a key returned after a failed fetch is at most the stale limit old |
| JwtKeyAge.FetchedAnswerAge | auth_context_jwt.py:250-261 | a key returned after a successful fetch is of the set just fetched, whose date is the reading after that fetch |
| JwtKeyAge.WithdrawnKeyIsReturned | auth_context_jwt.py:221-225 | a concrete interleaving in which the fast path returns a withdrawn key 100000 seconds old |
| JwtKeyAge.UncheckedKeyIsReturned | auth_context_jwt.py:232-235 | a concrete interleaving in which a waiting request returns a key 900000 seconds old |
| JwtKeyCache.JwtVerifier.KeyFor | auth_context_jwt.py:219-261 | the body of the lookup, run alone, has the effect and the answer of its atomic actions; it returns the key exactly when it is unexpired, usable inside a retry window, freshly fetched, or usable after a failed fetch, and otherwise says unknown or unavailable as specified |
| JwtKeyCache.LookupIsOwed | auth_context_jwt.py:219-261 | the same availability conditions, and what a lookup leaves behind, for its sequence of atomic actions |
| JwtAnswers.EveryStepIsOwed | auth_context_jwt.py:219-261 | for every interleaving and every step of a request: exactly when it returns the key, calls it unknown, calls the keys unavailable, or goes on, the moved generation included |
| JwtKeyCache.JwtVerifier.Warm | runtime_auth_warm.py:33-55 | the same for the warm-up, the second writer under the same lock: ready exactly with unexpired keys or a successful fetch outside the retry window |
| EvaluationLedger.EvaluationTables.RecordEvaluationEvent | evaluation_policy.py:106-155 | records the event and advances the account as specified, or raises the specified error and changes nothing |
| EvaluationLedger.EvaluationTables.ConfigureEnterprisePilot | evaluation_policy.py:158-172 | changes type and missing status, or raises the specified error and changes nothing |
| EvaluationLedger.EvaluationTables.GrantEvaluationExtension | evaluation_policy.py:175-206 | extends end and granted days together, or raises the specified error, checked in the program's order, and changes nothing |
| EvaluationLedger.EvaluationTables.MarkEvaluationPaid | evaluation_policy.py:237-243 | turns a live evaluation into a paid one and records the conversion, otherwise changes nothing |
| EvaluationLedger.LedgerStaysSound | evaluation_policy.py:106-206 | over every call sequence: end = activation + duration of the type + extension with 0 <= extension <= 7, type fixed once activated, active status implies all three activation events, paid is never left |
| EvaluationLedger.ActivationIsPrompt | evaluation_policy.py:128-152 | a live account is activated if and only if the three activation events are on record |
| EvaluationLedger.AccessEndsOnTime | evaluation_policy.py:209-234 | after any calls, an active account has access exactly until its computed end |
| EvaluationStages.StageFollowsTheEvents | evaluation_policy.py:128-152 | after any calls an account is onboarding, profile done, value ready or active as its recorded events call for, unless paid or closed |
| EvaluationStages.ExtensionGrantedExactly | evaluation_policy.py:175-206 | after any calls an extension is granted if and only if the days are positive, the account is activated and unpaid, used, under-exposed and not inactive, and stays within seven days; end and days move together |
| EvaluationStages.EvaluationEndsAfter | evaluation_policy.py:136-147 | after any calls an activated evaluation ends 21 days after activation, 30 for a pilot, plus the granted days |
| EvaluationStages.ValueIsExposedExactly | evaluation_policy.py:128-134 | over any calls a pending value status is exposed if and only if an event that shows value was recorded while the account was live |
| EvaluationStages.PilotConfiguredExactly | evaluation_policy.py:158-172 | a pilot is configured if and only if the account exists, is not activated and not on the paid plan, and only type and a missing status change |
| EvaluationStages.PaymentEndsTheEvaluation | evaluation_policy.py:237-243 | payment is recorded exactly for an account that takes part and is not paid, which then leaves the access rules |
| EvaluationStages.AccessExactly | evaluation_policy.py:209-234 | a participating unpaid account has access unless it is closed or its end has come |

## Left out

- HTTP sessions, ZIP, XML, JSON, CSV and ISO date parsing, byte and entry limits, catalogue discovery: their results, or their failure, are inputs of the model.
- Time zones, digests and signature checks: days, local months and fingerprints are given, and fingerprints are taken to be injective.
- SQL text, schema migration and locking: a table is a map and a transaction is one step; the runtime that commits cursor and observations together is not part of this model.
- Cursor encoding: cursors are values, so JSON decoding errors and cursors of older versions are not modelled, except for the month text of the Estonian cursor.
- Descriptive fields of a lot (title, buyer, place, categories, links): one opaque content value that is copied as a whole.
- Germany, folder filter: which award files are parsed depends on the lots known so far; the events of a day are taken as given.
- Germany, validation of recently closed entries read from a cursor: the entries of the model are well formed.
- GermanyCatchup.ChunkIndependence: speaks of a publisher that serves the whole range in key order, and of runs at one instant and target.
- ItalyForgetting.ForgettingIsSafe: needs the keys of later days not to be smaller, and compares two runs at one instant over the same data.
- ItalyCatchup.ChunkIndependence: needs the keys of later days not to be smaller, and every day to be readable.
- AustriaHistory.HistorySkipsNothing: speaks of lists that only grow and of a clock that does not go back; an item that is replaced by a newer version of itself before it is read is outside it.
- AustriaSchedules.ScheduleDoesNotMatter: speaks of error-free runs over fixed lists whose items have distinct keys and, but for each list's last, whole-second times; runs with failures are covered by AustriaNoSkip.NothingIsSkipped.
- AustriaVersions.NewestVersionDecides: names the versions of a lot through the identity each state is stored under; what that identity is, AustriaState.KnownAliasMergesIntoItsOwner and AustriaState.NewAliasKeepsItsIdentity say.
- GermanyHistory.StoredLotIsItsHistory: speaks of days that do not change, are sorted and name a lot once per key, and leaves out lots that a run dropped as elapsed or past retention; GermanyHistory.DroppedExactly says which these are.
- ItalyHistory.NewestEntryDecides: speaks of days that do not change and of lots with one entry per version; ItalyForgetting.ReadFromNothing covers several entries of one version.
- JwtAnswers.EveryStepIsOwed: says what each step answers, not that a waiting thread is ever scheduled.
- Austria, cap on fetches below one: the program refuses to build such a connector, the model's constructor asks for a legal cap.
- Estonia, awards of other procurement types: a malformed one raises only when its procedure is tracked; the model's months are rejected or accepted as a whole.
- EstoniaMonths.MonthTextRoundTrip: the numeral parser knows ASCII digits and blanks only, which is all the written form contains.
- EstoniaCatchup.ChunksAreOnePass: compares everything but the labels of the last batch, which EstoniaCatchup.BatchesConcatenate describes, and speaks of a clock whose month does not go back and of ranges from the year 2000 on.
- Poland, event processing, window planning and finalisation: the same lot pattern as in Germany with fewer interactions.
- Poland.BZPConnector.FetchInterval: its contents result assumes true counts and genuine rows; that lists are complete is proved, not assumed.
- Socrata, start stamp and row normalisation: the start stamp is an input and rows are opaque.
- OCDS, window processors and normalisers: releases are returned as they are; a run without windows returns no mark, which is taken as leaving the stored one.
- DecisionRefresh.CacheConverges: keeps rows, profiles, versions and scoring fixed over the calls, because it counts them; DecisionRefresh.FreshMeansUpToDate lets them change. All decisions of a call carry one time stamp.
- DecisionRefresh.FreshMeansUpToDate: takes the scoring to be a function of what the fingerprint is made of, that is, the versions to be raised whenever the scoring changes.
- EvaluationLedger.LedgerStaysSound: covers the calls of this module and plan changes by billing; summaries and metrics are read-only views that are not modelled.
- Connectors of Korea, the Netherlands, Lithuania, Canada, Latvia, Ecuador and Chile: the same patterns with fewer interactions.
- Scoring, keyword lists, profiles, web routes, push delivery and user interface: case analysis or presentation with little state.
