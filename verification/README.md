# Excise: reviewed deletion and the map that follows it

Excise shows what fills a disk and deletes, permanently, what the reader has reviewed. This project models
the parts of it whose correctness is hardest to see, and proves what they are for:

- **One entry's removal** (`Isolation`): the entry's name is exchanged with a placeholder's, what the
  placeholder's name then holds is looked at twice and unlinked, and the placeholder is moved aside, checked
  and unlinked. Before every system call other processes may make, remove, link, rename, exchange and edit
  anything (`FileSystem.Move`, played by `Volume.Pass`), and the call itself may be refused.
- **A whole run** (`Execution`): the plan is taken from its end, with gates, soft and hard cancellation,
  refusals, unreadable plans and full results; `Guarantees` states what holds of every run as lemmas over its
  history of turns.
- **The plan** (`Planner`): a walk of the target with a bag of pending folders that gives them back in any
  order.
- **The spill files** (`Spill`, `PlanStore`, `Reports`): authenticated, framed records in a file whose reads,
  writes and truncations may fail; the plan and the results over them, resident or spilled; and the room that
  is reserved for results before consent (`Records`).
- **The owner of the map** (`Owner`, `App`): publications owed by the store thread, removals taken out of the
  map by one overlay after the other, rebuilds, and failures excused because of deletions, with store answers,
  store loss, scans, deletions and cancellations arriving in any order. `Owner` says what each event makes of
  the state and proves the invariant over all runs; the methods of `App` change the owner's fields one by one
  to the same end.
- **The deletion history** (`History`), **page history** (`Pages`), the **file identity codec**
  (`FileIdCodec`) and the **mount table decoder** (`Mountinfo`).

Assumptions: the last look at a name and the unlink of that name are one step as far as that name and its
object's content go (no system offers more); object numbers are not used again; a rename or exchange is
atomic; a refused call changes nothing and is never answered as "not found"; a tag of a spill record is an
injective function of what it is computed over (it stands for the keyed hash of RFC 2104, section 2); the
store refuses an overlay while a scan's generation is active, answers what it was asked in order, and may
refuse anything; a deletion's report is of the one that is executing; cancelling the primary scan ends the
run. Names are byte strings.

Three things the proofs turned up:

- `create_placeholder` leaves its file behind when reading the new file's metadata fails
  (`src/deletion.rs:2836-2841`): `Isolation.PlaceholderStays` is a volume on which it does, and
  `Isolation.CreatePlaceholder` says that when the first name drawn is free it does exactly if that one call
  is refused. So "no placeholder remains" does not hold of every run. `Guarantees.PlaceholdersLeftExactly`
  says when it does: with no interference, a placeholder has a name at the end if and only if a step of its
  making or clearing away was refused, or no private name was left to move it to (`World.balked`).
- The marker that reports an unreadable plan is sure of room as long as some planned entry's share is unused.
  A spilled plan checks its file's length before it sees that no entry is left (`src/deletion.rs:481-484`),
  so it can fail after the last entry, and then the marker fits if and only if its frame fits what the
  results left of their shares (`Reports.MarkerFitsExactly`, and `Guarantees.MarkerAtTheEnd` for the report).
  The marker repeats the target's path and a deleted entry leaves some 840 bytes, so a long path is enough:
  after a plan of one entry, deleted, it fits exactly up to 775 bytes of what it repeats of the entry, its
  detail and a link count (`Reports.MarkerNeedsAShare`).
- The two forms of the plan differ on an entry outside the target: the resident one keeps it, and the spilled
  one has dropped it when it finds out (`src/deletion.rs:339-362`). `PlanStore.PlanEntries.PopReverse` says
  so exactly and `PlanStore.FormsDiffer` is such a plan. A migration of the plan to a spill file that fails
  leaves the plan empty (`src/deletion.rs:287-301`). Planning ends in both cases, and a run only reports.

## Model

| member | source | states |
|---|---|---|
| FileSystem.MoveDisturbs | src/deletion.rs:2150-2392 | whatever another process does to names, links and contents, no object is lost without being on record as freed by it |
| FileSystem.PlayDisturbs | src/deletion.rs:2301-2337 | a gap between a last check and its unlink keeps that name's object and content, whatever else happens in it |
| FileSystem.GoneStaysGone | src/deletion.rs:2338-2347 | an object that has lost its last name never gets another |
| FileSystem.SwapNames | src/deletion.rs:2853-2862 | exchanging two names leaves the same objects named |
| FileSystem.RebindNames | src/deletion.rs:2944-2952 | a rename that replaces nothing leaves the same objects named |
| FileSystem.Volume.Exchange | src/deletion.rs:2853-2862 | the exchange swaps both names at once, or changes nothing and says why |
| FileSystem.Volume.RenameNoReplace | src/deletion.rs:2944-2959 | the rename takes only a free name, or changes nothing and says why |
| FileSystem.Volume.Unlink | src/deletion.rs:2331-2336 | the unlink removes one name of the object that was checked, and puts what it removed on record |
| FileSystem.Volume.ReadLinks | src/deletion.rs:2985-3004 | the links read through a reference are those the object has now |
| Isolation.OpenParent | src/deletion.rs:3362-3373 | the folder found is the one the path's parents lead to |
| Isolation.CreatePlaceholder | src/deletion.rs:2825-2850 | the placeholder is a new file under a name that was free, found if one of 128 names drawn is; a file that was made but not read stays, on record, and on a quiet volume exactly when that call is refused |
| Isolation.PlaceholderStays | src/deletion.rs:2836-2841 | a volume on which the new file's metadata is refused, and the file stays |
| Isolation.MoveAside | src/deletion.rs:2937-2964 | the placeholder moves to the first free private name of at most 128, never over an entry; when quiet, it stays only if a move was refused or the names ran out |
| Isolation.RemoveVerifiedPlaceholder | src/deletion.rs:2882-2897 | nothing but the expected placeholder is unlinked, and success means that it was; when quiet, it stays only if a call was refused |
| Isolation.RestoreDetached | src/deletion.rs:2899-2915 | success puts the entry back under its own name and removes the placeholder; when quiet, anything else means a refused call |
| Isolation.FinalizePlaceholder | src/deletion.rs:2925-2964 | the placeholder goes from the deleted entry's name and nothing else does; undisturbed, it does whenever the entry's private name or one of the next 127 drawn is free; when quiet, it stays only if a step was refused |
| Isolation.TakeOut | src/deletion.rs:2312-2351 | what is unlinked is the object that was reviewed, and "no link survived" means that it has none |
| Isolation.RemoveIsolated | src/deletion.rs:2226-2392 | after the exchange, every outcome says truly what was unlinked, what is left of the links, and where the entry's name is; when quiet, it is never missing while its name holds something, changed only if it could not go, deleted only if it could, and a failure is a refused call's; without refused calls the links reported of what stays are those it has |
| Isolation.RemoveBehindPlaceholder | src/deletion.rs:2190-2392 | the same from the placeholder on, with the gate, the refusal and the disappearance before the exchange: the entry is left exactly when the gate is closed, and the cancellation is then noted |
| Isolation.ExecuteEntry | src/deletion.rs:2150-2392 | one attempt under any interference: everything unlinked is the reviewed object or the attempt's own placeholder; nothing is made or unlinked behind a closed first gate; when quiet, the names change by exactly the entry's name if it is deleted and not at all otherwise, unless a clean-up was refused, and then it is on record for the placeholder, and each outcome has its reason in the tree before; when undisturbed and possible, it deletes |
| Isolation.MatchesExactly | src/deletion.rs:3702-3713 | the comparison before an unlink holds exactly of the reviewed object, of its kind, and for a file or link with the same sizes and time of modification |
| Isolation.OutcomeExactly | src/deletion.rs:2150-2392 | with no interference, refused call or closed gate, an entry is missing exactly if its name is free, deleted exactly if it holds what was reviewed and is no folder with contents, and changed otherwise |
| Execution.TakeTurn | src/deletion.rs:2068-2108 | an entry's turn is an attempt, or nothing after a cancellation or a stop; an unattempted attempt cancels the run |
| Execution.Report | src/deletion.rs:2118-2134 | a turn's result, its kept link count and the other-links flag; with room it is always stored |
| Execution.RunTurns | src/deletion.rs:2055-2142 | the loop makes a run of turns in the plan's reverse order and ends complete, with a full collector, or with a marker for an unreadable plan; a marker is stored exactly if it fits |
| Execution.ReportFailed | src/deletion.rs:2593-2618 | a run that cannot begin reports every entry failed, in the same order |
| Execution.Mark | src/deletion.rs:2620-2651 | the marker of an unreadable plan is stored as long as some planned share is unused, and in a sound file exactly if it fits after what was reported |
| Execution.RoomReserved | src/deletion.rs:762-803 | what was reserved while planning is room for the results of the whole plan |
| Execution.ExecutePlan | src/deletion.rs:2027-2142 | the report tells exactly what happened in the run; with sound storage it never runs short of room; with the results in a sound file the marker is told exactly if it fits |
| Guarantees.UnattemptedStays | src/deletion.rs:2068-2117 | once an entry is left unattempted every later one is |
| Guarantees.AttemptedExactly | src/deletion.rs:2068-2117 | an entry is not attempted exactly if a cancellation stands, the one before it was left, or the exchange of the one before it was refused at a path at least as long as a path may be |
| Guarantees.CompleteReport | src/deletion.rs:2670-2686 | a complete report has one result per planned entry in reverse order, and its five counts add up to the plan |
| Guarantees.CountsOfAnyReport | src/deletion.rs:851-892 | however a run ends, its counts exceed its stored results by at most one |
| Guarantees.ReportedCounts | src/deletion.rs:959-984 | each of a report's five counts is the number of turns that ended so, saturated, with the marker as one more failure, and its logical bytes are the sum over the deleted entries, saturated |
| Guarantees.NothingCountedBeforeTheStart | src/deletion.rs:2593-2618 | the report of a run that could not begin counts only failures, one for each result |
| Guarantees.TargetRemovedMeansAllAttempted | src/deletion.rs:1381-1386 | when the target is reported removed, no entry was left unattempted and the target's own turn ended with it deleted or missing |
| Guarantees.TargetRemovedExactly | src/deletion.rs:1381-1386 | a complete run says that its target is gone exactly if nothing was cancelled and the attempt at the target ended with it deleted or missing |
| Guarantees.RemovedTargetIsGone | src/deletion.rs:1381-1386 | with no interference, when the target is reported removed nothing is at its path after the run |
| Guarantees.OnlyReviewedObjectsGo | src/deletion.rs:2150-2392 | under any interference, every object unlinked in a run is a placeholder of the executor, or had the number, reparse mark and kind of a reviewed entry when it went and, unless a folder, its sizes and time of modification |
| Guarantees.ChangedEntryStays | src/deletion.rs:2258-2310 | with no interference, an object that differs from the review in any one of these is neither deleted nor missing, nothing but a placeholder is unlinked, and unless a call was refused the name keeps it |
| Guarantees.NothingElseIsLost | src/deletion.rs:2853-2964 | an object that was not reviewed and that no other process freed still has a name after the run, whoever made it and whenever |
| Guarantees.PlaceholdersGo | src/deletion.rs:2882-2964 | unless a clean-up is reported failed, every placeholder made in a run was unlinked |
| Guarantees.PlaceholdersLeftExactly | src/deletion.rs:2825-2964 | with no interference, a placeholder made in the run has a name at its end if and only if a step of its making or clearing away was refused; none is left if and only if none was |
| Guarantees.NothingIsLeftWithoutFaults | src/deletion.rs:2150-2392 | with no interference and no refused call, whatever the gates and cancellations: no clean-up fails, and the names after the run are those before without the entries reported deleted |
| Guarantees.FreedIsGone | src/deletion.rs:2318-2351 | bytes reported as freed are of an object with no name left |
| Guarantees.FreedOnce | src/deletion.rs:3715-3728 | no object's bytes are reported as freed twice |
| Guarantees.FreedTotal | src/deletion.rs:959-984 | the reported total is the sum of what the results free, saturated |
| Guarantees.ReportedFreed | src/deletion.rs:959-984 | the report's total of freed bytes is the saturated sum over the turns that freed an object, which are turns of different objects, none of which has a name left |
| Guarantees.KeptLinksAreRight | src/deletion.rs:3715-3728 | the result of a deleted file that keeps a link count keeps at most one, and no name is left; any other result keeps what was seen last |
| Guarantees.MarkerAtTheEnd | src/deletion.rs:2620-2651 | when a spilled plan fails after its last entry, the marker is in the report if and only if its frame fits what the results left of their shares |
| Guarantees.NoOtherLinksIsRight | src/deletion.rs:3739-3747 | if the other-links flag is false, every attempted file or link was removed and has no name left |
| Guarantees.SeenGoneRaisesNothing | src/deletion.rs:3739-3747 | a file whose last link was seen to go raises no flag of other links |
| Guarantees.OtherLinksExactly | src/deletion.rs:3730-3747 | in an undisturbed run other links are reported exactly if some planned file or link had more than one when its turn came, and exactly if one had more than one before the run |
| Guarantees.TreeAfterRun | src/deletion.rs:2027-2142 | with no interference, for every pattern of gates, cancellations and refusals: the names after the run are those before without the entries reported deleted |
| Guarantees.ReadyInTurn | src/deletion.rs:2055-2142 | taken from the plan's end, an entry's folder is still there at its turn, and a folder is empty |
| Guarantees.UndisturbedRunRemovesTheTarget | src/deletion.rs:1642-1719 | planner and executor together: an undisturbed run deletes every entry, and exactly the names at and below the target are gone |
| Guarantees.LinkedFilesCountOnce | src/deletion.rs:2318-2351 | a planned file's bytes count once if all its links were in the plan, and not at all if one was outside |
| Guarantees.UndisturbedReport | src/deletion.rs:1381-1386 | an undisturbed run reports its target removed |
| Guarantees.ReviewAndDelete | src/deletion.rs:1568-1762 | from review to report: a refused review changes nothing and has its reason; one with nothing in its way is granted; a granted one, undisturbed, removes exactly the target |
| Guarantees.DeleteAndKeep | src/app.rs:3080-3106 | a deletion that is allowed to start and planned within its budget ends with its report in the history, whatever the run did, and undisturbed with exactly the target gone; a refused one leaves no trace |
| Spill.AcceptedIsStamped | src/deletion.rs:622-694 | a record that is read carries the tag of its own offset, length and payload |
| Spill.ReadAtRecord | src/deletion.rs:536-539 | reading at a record's offset yields it and the next one's offset |
| Spill.LastOfLog | src/deletion.rs:481-534 | the last record is found from its trailing length |
| Spill.RecordSpill.Append | src/deletion.rs:448-479 | a payload is added at the end of a file that is as long as it was left, whoever wrote to it, or the log is as it was; with reserved room and a sound file it is always added |
| Spill.RecordSpill.Pop | src/deletion.rs:481-534 | takes back the payload pushed last, with bytes, count and reservation as before it; an accepted one was pushed there |
| Spill.RecordSpill.ReadAt | src/deletion.rs:536-539 | from a record's offset, that record and where the next begins |
| Spill.RecordSpill.Visit | src/deletion.rs:541-561 | the payloads first to last, up to a failure or a refusal; of a file that others wrote to, only payloads that were pushed at the offsets they are read from |
| Records.BoundedIsShort | src/deletion.rs:1266-1278 | a bounded detail is at most 128 bytes of valid UTF-8, and drops no more than a partial character beyond what it must |
| Records.BoundedDetail | src/deletion.rs:1266-1278 | the loop cuts at the last character boundary that leaves room for the ellipsis |
| Records.EscapeBound | src/deletion.rs:59-63 | a byte takes at most six when it is written as JSON |
| Records.ResultFits | src/deletion.rs:1227-1253 | a result of any verdict, bounded detail and link count fits the record reserved for its entry |
| Records.ResultBytesBounded | src/deletion.rs:1293-1328 | a resident result takes no more than was charged for it |
| PlanStore.PlanEntries.Push | src/deletion.rs:280-312 | adds one entry to what the plan holds, resident or spilled, and migrates when told to; a failed migration, and nothing else, empties the plan; sound storage refuses only what does not fit |
| PlanStore.PlanEntries.Migrate | src/deletion.rs:287-301 | moving to a spill file keeps every entry, or leaves none; sound storage refuses only what does not fit |
| PlanStore.PlanEntries.TryForEach | src/deletion.rs:314-337 | the first entry that is outside the target or judged a problem, the same for both forms |
| PlanStore.PlanEntries.PopReverse | src/deletion.rs:339-362 | the last entry, the same for both forms; one outside the target stays in the resident form and is gone from the spilled one; sound storage fails on no other |
| PlanStore.FormsDiffer | src/deletion.rs:339-362 | a plan whose two forms hold different entries after the same refusal |
| PlanStore.PendingDirectories.Push | src/deletion.rs:366-387 | a folder joins the bag, in memory or in the file |
| PlanStore.PendingDirectories.Pop | src/deletion.rs:389-403 | some folder leaves the bag, each exactly once |
| Reports.PlannedResultStorage.ReserveFor | src/deletion.rs:762-803 | the reservation is the sum of the capacities of the planned entries, spilled exactly when told to; sound storage refuses only what does not fit |
| Reports.ResultCollector.Push | src/deletion.rs:852-892 | a result is counted once, and in sound storage stored exactly if there is room; with room for the planned entries there is, and room for the rest remains |
| Reports.CountsAddUp | src/deletion.rs:959-984 | the five counts of any results add up to their number |
| Reports.CountsAreOfTheirVerdicts | src/deletion.rs:959-984 | each count is the number of results with its own verdict, and the logical bytes are the sum over the deleted ones, saturated |
| Reports.DeletionEntries.Iterate | src/deletion.rs:1146-1184 | reading a report yields the stored results in order, all of them when the file is sound |
| Reports.LargestIsLargest | src/deletion.rs:1227-1253 | no verdict, bounded detail or link count makes an entry's result larger than one that is named |
| Reports.MarkerFitsExactly | src/deletion.rs:2620-2651 | after all results of a plan, the marker of an unreadable plan can be stored if and only if its frame fits what they left of their shares |
| Reports.MarkerNeedsAShare | src/deletion.rs:2620-2651 | after the one entry of a plan, deleted, that is so if and only if what the marker repeats of the entry, its detail and a link count take at most 775 bytes |
| Reports.DeletedRemainders | src/deletion.rs:1227-1253 | a deleted entry leaves at least 834 bytes of its share |
| Planner.FolderBeforeContents | src/deletion.rs:1642-1719 | in a plan, a folder stands before everything below it |
| Planner.NothingMissed | src/deletion.rs:1642-1719 | when no folder is pending, everything below the target is in the plan |
| Planner.PlanningStorage.Push | src/deletion.rs:3927-3957 | the charge stays within the budget, is zero once the plan is spilled, and covers every result until then; plan and results spill together |
| Planner.Walk | src/deletion.rs:1658-1719 | the walk ends, with each node of the target once and each folder before its contents, in whatever order folders come back, having met no mount, no unreadable path and no set flag; one that stops early was cancelled, or met a name, a mount, an unreadable path or a storage failure below the target |
| Planner.Revalidate | src/deletion.rs:1772-1795 | a plan passes exactly when every entry is still observed as reviewed; the first that does not says why |
| Planner.BuildPlan | src/deletion.rs:1568-1762 | a plan that is made covers the target exactly, of a target that is what the map lists, with nothing in the way of any path at or below it and no cancellation seen; each refusal has its own reason; with no reason against it, it is made |
| Planner.ListedExactly | src/deletion.rs:3338-3360 | the comparison with the map holds exactly of a target with the kind, size and time that it lists, and of the object and the number of links, if it knows them |
| Planner.PlannedIsPassable | src/deletion.rs:1658-1719 | a plan that was walked and looked over again has no mount, unreadable path or interruption at or below its target |
| Planner.PlannableIsNotRefused | src/deletion.rs:1568-1762 | a target that is what the map says, with nothing in the way below it, gives no reason for any refusal |
| Planner.OrdinaryTargetsFit | src/deletion.rs:762-803 | a target without overlong records fits its spill files on any volume of fewer than some 17 * 10^12 names |
| Owner.LeftOut | src/app.rs:1468-1515 | taking subtrees out of a map one after the other leaves what none of them covers |
| Owner.InvalidatedIsValid | src/app.rs:1806-1826 | sending the map back to a scan settles every removal and every excused failure |
| Owner.NextOverlayIsValid | src/app.rs:1980-2020 | asking for the next overlay, or failing to, keeps every removal accounted for |
| Owner.CompletedPrimaryIsValid | src/app.rs:1400-1434 | the first map's arrival or loss keeps the invariant, and ends in one finished publication |
| Owner.CompletedRebuildIsValid | src/app.rs:1436-1466 | so does a replacement map's arrival, loss or cancellation |
| Owner.CompletedOverlayIsValid | src/app.rs:1468-1515 | so does an overlay's arrival or loss, with the next one asked for |
| Owner.StoppedIsValid | src/app.rs:1341-1346 | the loss of the store ends every outstanding publication and keeps the invariant |
| Owner.RecordedIsValid | src/app.rs:1886-1896 | a removal before the first map is kept for it, or owes it a rebuild |
| Owner.SettledIsValid | src/app.rs:1904-1913 | when the first map arrives or will not, nothing recorded for it is forgotten |
| Owner.CompletedDeletionIsValid | src/app.rs:3080-3093 | a deletion's end leaves its removal covered and its excused failures answered |
| Owner.ExcusedEndedIsValid | src/app.rs:2215-2225 | an execution that removed nothing describable owes a rebuild for every path it excused |
| Owner.ScanFailedIsValid | src/app.rs:2183-2208 | an excused path is remembered, under the execution or under the recorded removal it lies below |
| Owner.BegunRebuildIsValid | src/app.rs:2026-2061 | a rebuild begins only with nothing outstanding, after every removal made so far |
| Owner.RebuildScanEndedIsValid | src/app.rs:3363-3386 | the end of a rebuild's scan begins its publication or ends it at once |
| Owner.FinishedRebuildIsValid | src/app.rs:3390-3445 | a settled rebuild's map reflects every removal made before its scan, or another is owed |
| Owner.RunsAreValid | src/runtime/mod.rs:1093-1230 | the invariant holds in every state of every run |
| Owner.RefreshesAreTrue | src/app.rs:1295-1314 | when a refresh is answered as published, every removal is out of the installed map, nothing is still owed, and the answer is given once |
| Owner.RefreshesAreAnsweredExactly | src/app.rs:1295-1314 | in every run, an answer is given exactly when a removal has not been answered for and nothing is outstanding, finished, waiting, required or under way; it is "published" exactly if the store is there and "failed" exactly if it is not; only the first lists the left-out paths again |
| Owner.RemovalIsTakenUp | src/app.rs:1938-1979 | once the first map is shown, a removal that an overlay describes waits for one or has one asked for, and no scan is required; any other has the tree scanned again, and a rebuild under way does not stand |
| Owner.EarlyRemovalIsRecorded | src/app.rs:1886-1896 | while the first map is owed, a removal waits for it if there is a place, and that map will be scanned again exactly if some removal had no place, was partial, left other links, or was the root's |
| Owner.OverlayIsAskedFor | src/app.rs:1980-2020 | the store is asked for the installed map less the removal made first of those waiting, told the targets of the others, and to check the scan root exactly if that removal was made before the map |
| Owner.InvalidatedRequires | src/app.rs:1806-1826 | an outdated map stays on screen exactly if its pages are all there, and a scan is required |
| Owner.WholeDeletionIsOverlaid | src/app.rs:1938-2020 | a whole deletion on a map at rest: its target is left out of the view until the overlay arrives, and then a refresh is answered as published, of the map there was less the target |
| Owner.OverlayIsRefused | src/app.rs:1468-1515 | an overlay that does not come, or whose pages cannot be read, has the tree scanned again before the refresh is answered |
| Owner.OverlayIsLost | src/app.rs:1295-1346 | when the store is lost with the overlay, the refresh is answered as failed, and the view goes on leaving the target out |
| Owner.OtherDeletionIsRescanned | src/app.rs:1938-2061 | a deletion that was partial, left other links or was of the root: the tree is scanned again, and the refresh is answered when what the scan found is the map |
| Owner.ScanIsLost | src/app.rs:1436-1466 | when that scan's map does not come, the refresh is answered as failed, and the old map stays |
| Owner.CancelledRebuildWaits | src/app.rs:3514-3537 | a rebuild that the reader cancels leaves the map as it is, answers nothing, and does not begin again until a new removal asks for it |
| Owner.EarlyDeletionIsOverlaid | src/app.rs:1886-2020 | a whole deletion during the primary scan: the scan's map is shown, the target is taken out of it, and the refresh is answered |
| Owner.FirstMapIsLost | src/app.rs:1400-1434 | when that scan's map does not come, or cannot be read, the refresh is answered as failed |
| Owner.OverlaysGoInOrder | src/app.rs:1980-2020 | overlays are outstanding one at a time on the installed map, in the order of the removals, at most eight waiting, with the root check exactly for those before the first map |
| Owner.PublicationsEndOnce | src/app.rs:1351-1466 | each primary or rebuild publication begun ends exactly once, matching and in order; overlays end in none |
| Owner.InstalledMapContent | src/app.rs:111-149 | the installed map is its scan's findings less the removed subtrees; once refreshed, less all of them since that scan began |
| Owner.ExcusedFailuresAreAnswered | src/app.rs:2183-2225 | every failure excused at a path is answered for in every later state: by the execution above it, which is remembered, by a removal above it that is out of the map or will be, or by a rebuild or the absence of a map |
| Owner.ExcusedExecutionEnds | src/app.rs:3080-3093 | an execution that excused a path ends as a described removal above it, on record and covered, or owes a rebuild for it |
| App.App.ApplyPublicationResult | src/app.rs:1379-1398 | a store answer settles the oldest publication outstanding, and keeps the invariant |
| App.App.StoreStopped | src/app.rs:1341-1346 | the loop settles every publication outstanding as failed, and leaves none |
| App.App.CompleteDeletion | src/app.rs:3080-3093 | the fields change step by step to the removal logged and reconciled and the excused failures answered, and the invariant is kept |
| App.App.PathRemovedByADeletion | src/app.rs:2183-2208 | a path is excused exactly below a recorded removal or the executing target while the first map is owed |
| App.App.TakeFinishedPublication | src/app.rs:1282-1284 | the oldest finished publication is taken and its own end carried out |
| App.App.TakeLandedRefresh | src/app.rs:1295-1314 | the answer exactly when one is due, by whether the store is there; the view stops leaving paths out exactly if a map was published, and the answer is not given again |
| App.App.Handle | src/runtime/mod.rs:1181-1230 | whatever event the loop hands over, the separate fields become what the specification says, so every lemma about runs holds of the object |
| App.App.BeginGenerationRebuild | src/app.rs:2026-2061 | a rebuild begins exactly when one is required and nothing is in its way |
| App.App.EndRebuildScan | src/app.rs:3363-3386 | a rebuild's publication begins, or it ends at once as settled, cancelled or failed |
| History.DeletionHistory.RequestDeletion | src/app.rs:2570-2594 | a deletion starts exactly when history and rail have a place, with half of the room that is left |
| History.DeletionHistory.Complete | src/app.rs:3095-3106 | a report is kept exactly if it finds a place, and every report within the budget its deletion was granted does |
| History.DeletionHistory.BytesInFlight | src/state/deletion_work.rs:415-419 | the budgets in flight, with no sum saturating |
| History.DeletionHistory.Cancel | src/state/deletion_work.rs:1047-1060 | only the one deletion leaves the rail, and its place is free again |
| History.DeletionHistory.DropExported | src/app.rs:3209-3217 | the exported reports go, with exactly their bytes |
| FileIdCodec.Buffer.Append | src/file_id_codec.rs:33-65 | the canonical bytes are added to whatever is there |
| FileIdCodec.PrefixFree | src/file_id_codec.rs:33-73 | no bytes begin with the encodings of two identities |
| FileIdCodec.DecodePrefix | src/file_id_codec.rs:140-161 | the identity whose encoding the bytes begin with, or none when there is none |
| FileIdCodec.Decode | src/file_id_codec.rs:167-173 | exactly the canonical encodings are accepted |
| FileIdCodec.CompareIsLex | src/file_id_codec.rs:77-124 | the comparison is the lexicographic order of the encodings |
| FileIdCodec.CompareIsTotalOrder | src/file_id_codec.rs:77-124 | it is a total order in which only equal identities are equal |
| Mountinfo.Decode | src/deletion.rs:3522-3555 | the loop decodes byte by byte as its specification, errors included |
| Mountinfo.DecodeUndoesEscaping | src/deletion.rs:3522-3555 | the decoder undoes the kernel's octal escaping of every path without a NUL, whichever bytes are escaped |
| Mountinfo.OverflowsAboveThree | src/deletion.rs:3544-3544 | the byte arithmetic stays in range exactly for escapes whose first digit is at most three |
| Mountinfo.HighEscapeIsMisread | src/deletion.rs:3544-3544 | any other escape, where the arithmetic wraps, is read as another byte, or refused as a NUL that it is not |
| Pages.ThereAndBack | src/app.rs:1732-1805 | k pages forward and k back return to the start for k up to 32, and beyond it end at the oldest page kept |
| Pages.PageStack.Next | src/app.rs:1762-1788 | the page left behind is kept when the next one opens, the oldest forgotten beyond 32 |
| Pages.PageStack.Previous | src/app.rs:1790-1805 | the page kept last is opened again, and leaves the stack only then |
| Pages.PageStack.LeaveEmptied | src/app.rs:3121-3131 | leaving emptied pages ends, at the last page that lists something, the oldest, or one that cannot be read |

## Left out

- The Windows executor, `/proc`, `statx`, `/.vol`, handles and path display: system calls are modelled as folder-map operations with a possible error.
- The planner runs on a tree that does not change while it walks: a change during the walk is caught by its comparisons and by the revalidation, which end the plan as changed.
- An unlink that finds the name gone after the last look (`src/deletion.rs:2360-2368`): it cannot happen once that look and the unlink are one step.
- The comparison with `reviewed_entries` that a caller may supply: it only adds refusals.
- Folder link counts, modification times of folders while names in them change, and device boundaries other than mount roots.
- Failing memory allocation (`try_reserve_exact`), poisoned locks, and the temporary storage's own quota beyond "a spill request may fail".
- SHA-256, key generation, constant-time comparison and the confirmation challenge; the bodies of the JSON and path encodings, which are an abstract injective format with a length.
- The registry that hides the executor's transient names from scanners, progress counts and hooks of tests.
- UI modes, rendering, the cursor, filters, announcements, the publication progress clock, pending navigation and the work rail's stages.
- The scan store, store thread and session coordinator themselves: what they may answer is a parameter of every event.
- `App.App` keeps the fields of the removals that wait as one value (`removals`), as the program keeps them in one struct.
- Whether a refresh that is owed is ever answered under any order of events: that is proved of the undisturbed orders (`Owner.WholeDeletionIsOverlaid`, `Owner.OtherDeletionIsRescanned`, `Owner.EarlyDeletionIsOverlaid` and their losses); of the others, when it is.
- Isolation.ExecuteEntry: does not say that an attempt succeeds when other processes interfere, because none can.
- Guarantees.TreeAfterRun: asks that no clean-up is reported failed; which placeholders then remain, `Guarantees.PlaceholdersLeftExactly` says.
- Planner.Walk: says that some part of the target does not fit its files when sound storage fails, not which push found it out.
- `src/config.rs`, `src/cli.rs`, `src/filter.rs`, `src/animation.rs`, `src/entry_metadata.rs`, benchmarks, probes and fuzz drivers.
