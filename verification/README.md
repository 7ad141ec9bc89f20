# Request ordering in the console, and event order in its migrations

The console shows workspaces, their logs and their controls from reads that
overlap. A read may answer late, twice over, or after the reader has lost its
authorization. Generations, applied/failed/revoked watermarks, epochs and
per-route denial latches decide whether an answer may still change the screen.
This project models those protocols as state machines and proves what every
interleaving keeps; it models the list window, the scroll anchor and the log
trimmer that turn the result into a screen; and it models the two migrations
that give workspace events their order and their retry markers.

Two forms sit side by side. The state machines are values and step functions,
and the theorems quantify over every run. The classes hold the refs and state
cells the source overwrites, with its loops and its order of assignments, and
each method is proved to make exactly one step of its machine.

| area | machine and theorems | in-place form |
|---|---|---|
| fullscreen log column | `LogColumn`, `LogColumnSafety`, `LogColumnTheorems`, `ListingQueue`, `TailRetry` | `WorkspaceLogColumn`, `TailRefreshEffect` |
| capability negotiation and its poll | `Capabilities`, `CapabilityTheorems` | `CapabilityConsole` |
| inspector log tails | `LogTails`, `LogTailTheorems` | `WorkspaceLogTails` |
| workspace list loading | `Overview`, `OverviewBackfill`, `OverviewLoader`, `OverviewTheorems`, `OverviewContinuation`, `OverviewRotation` | `ConsoleOverviewLoader` |
| log buffer | `LogTrim` | its two methods |
| list window and scroll anchor | `ListWindow`, `ScrollAnchor` | `ScrollAnchor.WorkspaceList` |
| event order and markers | `EventOrder`, `MarkerBackfill` | `EventMigrations` |

Every stored log entry and every list row carries a tag naming the request that
produced it. Tags are never read by the modelled code; they are what the
invariants talk about. Every request settles at most once, in any order.

## Where the code falls short of what it says

- Once a column's stream denial is followed by a tail denial, the two gates wait
  for each other and nothing short of a capability change releases them.
  `RecoversUnlessBothDenied` is the exact condition.
- A held tail denial can lose the record of who was denied: a later read of other
  streams that fails drops it, and from then on neither the poll nor an unchanged
  listing reads the column again. `HeldLatchIsRetriedIff` is the exact condition.
- A selection click queued behind a listing denial refills the selection of a
  denied column. `DrainedDenialIsEmpty` says exactly what is left, and
  `QueuedClickRefillsSelection` exhibits it.
- The mutating-control gate reads the error text for truth, so an outage whose
  message is empty leaves the controls enabled. `GateOpensEarlyOnlyOnEmptyText`
  shows that this is the only way. Every HTTP failure is given a text
  (`apps/console/components/console-dashboard-shared.tsx:670-698`), so the empty
  one can only come from a rejected request (`:588-593`), and
  `OnlyRejectedRequestOpensGate` carries that through every run.
- The log comparator is an order exactly when no entry with an unparsable time
  stands between two timed entries against their times (`TransitiveIffConsistent`,
  `SortsEveryArrangementIff`). Entries whose order is their time always qualify;
  a live frame stamped with the epoch takes the clock as its order instead, and
  beside an unparsable frame the order is then cyclic (`EpochFrameIsCyclic`).
- The order backfill collides when some events already carry an order out of
  place. `UpgradeIsDenseIff` is the exact condition.
- A list scrolled past its end does not keep its top row
  (`OverscrolledAnchorLeavesItsRow`).

## Model

| member | source | states |
|---|---|---|
| LogColumnTheorems.DeniedColumnIsBlank | apps/console/components/console-dashboard-log-fullscreen.tsx:402-464 | in every run a held listing, tail or stream latch means no entries and no offsets; every entry is of the current epoch, and a tail entry is newer than the tail revoke watermark |
| LogColumnTheorems.NewLatchStartsEpoch | apps/console/components/console-dashboard-log-fullscreen.tsx:426-446 | the epoch never falls, and a newly taken latch always starts a new one |
| LogColumnSafety.StepKeepsInv | apps/console/components/console-dashboard-log-fullscreen.tsx:383-760 | every callback and effect keeps the column invariant |
| LogColumnTheorems.DeniedStreamLeaves | apps/console/components/console-dashboard-log-fullscreen.tsx:562-600 | a stream leaves the denied set only by its own 200 in a wave after the revoke watermark, or by no longer being selected and listed |
| LogColumnTheorems.TailLatchReleased | apps/console/components/console-dashboard-log-fullscreen.tsx:641-659 | the tail latch is never released by a sibling's 200 or by a failed retry |
| LogColumnTheorems.AppliedSuccessSilencesOlderFailures | apps/console/components/console-dashboard-log-fullscreen.tsx:466-517 | once a success is applied, no failure of its generation or older ever shows a warning for that stream |
| LogColumnTheorems.WarningIsNewest | apps/console/components/console-dashboard-log-fullscreen.tsx:660-702 | a shown warning names a failure newer than every applied read of its stream |
| LogColumnTheorems.DeniedStreamIsProbed | apps/console/components/console-dashboard-log-fullscreen.tsx:992-1107 | a denied stream on otherwise authorized routes always has a pending probe timer or an open probe, and never two timers |
| LogColumnTheorems.StuckForever | apps/console/components/console-dashboard-log-fullscreen.tsx:1046-1049 | with tail and stream both denied and streaming allowed, no run without a capability change leaves that state |
| LogColumnTheorems.RecoversUnlessBothDenied | apps/console/components/console-dashboard-log-fullscreen.tsx:553-560 | a column can recover if and only if tail and stream are not both denied |
| LogColumnTheorems.BothDeniedIsReachable | apps/console/components/console-dashboard-log-fullscreen.tsx:1109-1129 | that deadlock is reached by a concrete run |
| ListingQueue.DrainedDenialIsEmpty | apps/console/components/console-dashboard-log-fullscreen.tsx:775-860 | with updates queued and run arbitrarily late, a drained cell of a denied column is empty, except that the selection replays exactly the clicks since the denial or a later withdrawal of the logs |
| ListingQueue.DeselectingClicksStayEmpty | apps/console/components/console-dashboard-log-fullscreen.tsx:788-824 | clicks that select nothing keep that selection empty |
| ListingQueue.QueuedClickRefillsSelection | apps/console/components/console-dashboard-log-fullscreen.tsx:1343-1349 | a run from a fresh column: one click on a listed row before the clears flush refills the selection |
| ListingQueue.InstalledInventoriesIncrease | apps/console/components/console-dashboard-log-fullscreen.tsx:915-943 | over every run the generations of installed inventories strictly increase |
| TailRetry.HeldLatchIsRetriedIff | apps/console/components/console-dashboard-log-fullscreen.tsx:955-983 | a held tail denial with every read answered is read again by some run of polls and unchanged listings if and only if a denied stream is still on record |
| TailRetry.StaticListingRetriesIff | apps/console/components/console-dashboard-log-fullscreen.tsx:969-983 | an unchanged listing starts a read of such a column if and only if a denied stream is on record |
| TailRetry.WaveOrphansLatchIff | apps/console/components/console-dashboard-log-fullscreen.tsx:579-604 | a settled wave empties the record under a held latch exactly when it owns the column, read no denied stream and had no success |
| TailRetry.OrphanIsNeverRead | apps/console/components/console-dashboard-log-fullscreen.tsx:969-983 | without a record no such run ever reads a tail |
| TailRetry.LostRecordIsReachable | apps/console/components/console-dashboard-log-fullscreen.tsx:579-604 | a run from a fresh column that loses the record |
| TailRetry.AutoRunIsColumnRun | apps/console/components/console-dashboard-log-fullscreen.tsx:955-990 | with the refresh effect every run is still a run of the column |
| TailRefreshEffect.RefreshingColumn.Handle | apps/console/components/console-dashboard-log-fullscreen.tsx:955-983 | one event and the refresh effect on the refs are one step, and the invariant holds for ever |
| TailRefreshEffect.RefreshingColumn.RefreshSelectedTails | apps/console/components/console-dashboard-log-fullscreen.tsx:955-983 | the refresh-key effect |
| TailRefreshEffect.RefreshingColumn.NoteWave | apps/console/components/console-dashboard-log-fullscreen.tsx:593-685 | which failed reads a settled wave leaves on record |
| WorkspaceLogColumn.LogColumnComponent.Handle | apps/console/components/console-dashboard-log-fullscreen.tsx:383-1275 | one event on the component's refs and state is one step of the column, the invariant is kept, and a held latch means a blank column |
| WorkspaceLogColumn.LogColumnComponent.ApplyTailAuthDenial | apps/console/components/console-dashboard-log-fullscreen.tsx:402-464 | records in-flight siblings, advances the epoch once, covers started waves and clears the caches |
| WorkspaceLogColumn.LogColumnComponent.ApplyTailRefreshFailure | apps/console/components/console-dashboard-log-fullscreen.tsx:466-517 | stamps the failure and its warning unless something newer or a denial owns the stream |
| WorkspaceLogColumn.LogColumnComponent.WaveAnswered | apps/console/components/console-dashboard-log-fullscreen.tsx:546-760 | a settled wave writes only while it owns the column |
| WorkspaceLogColumn.LogColumnComponent.AdmittedOutcomes | apps/console/components/console-dashboard-log-fullscreen.tsx:562-628 | the loop admits per stream exactly the outcomes no newer read overrides |
| WorkspaceLogColumn.LogColumnComponent.ListingAnswered | apps/console/components/console-dashboard-log-fullscreen.tsx:774-943 | denial, outage and success rules of the listing route |
| WorkspaceLogColumn.LogColumnComponent.RunEffect | apps/console/components/console-dashboard-log-fullscreen.tsx:1019-1070 | the stream effect: withdraw, wait, arm a probe, or open a source |
| WorkspaceLogColumn.LogColumnComponent.OnMessage | apps/console/components/console-dashboard-log-fullscreen.tsx:1131-1248 | frame handling, with probe acceptance, rejection and denial |
| WorkspaceLogColumn.LogColumnComponent.RejectFailedStreamProbe | apps/console/components/console-dashboard-log-fullscreen.tsx:1073-1088 | a failed probe is closed and another is armed |
| WorkspaceLogColumn.LogColumnComponent.ApplyStreamAuthorizationDenial | apps/console/components/console-dashboard-log-fullscreen.tsx:1109-1129 | a stream denial clears the caches and arms one probe |
| CapabilityTheorems.ErrorFreeInventoryIsCurrent | apps/console/hooks/use-console-capabilities.ts:60-305 | an inventory shown without error is of the current context and newer than every applied denial, mutation denial, outage and missing contract, and only such a one is error-free |
| CapabilityTheorems.GateOpensEarlyOnlyOnEmptyText | apps/console/components/console-dashboard.tsx:776-779 | the mutating gate is open for a stale inventory exactly when its error text is empty |
| CapabilityTheorems.EmptyTextOpensGate | apps/console/hooks/use-console-capabilities.ts:101-144 | a run in which a rejected request with an empty message leaves the controls enabled |
| CapabilityTheorems.OnlyRejectedRequestOpensGate | apps/console/components/console-dashboard-shared.tsx:586-594 | with every HTTP failure worded, the gate opens for a stale inventory only after a rejected request with an empty text |
| CapabilityTheorems.EnabledOnlyAfterNewerRequest | apps/console/components/console-dashboard.tsx:697-711 | after any refusal the controls return only through a request newer than everything it covers |
| CapabilityTheorems.FreshRequestRecovers | apps/console/hooks/use-console-capabilities.ts:250-305 | from every reachable state one fresh request answered by a valid payload enables the controls |
| CapabilityTheorems.WindowDenialIsInert | apps/console/hooks/use-console-capabilities.ts:80-90 | under a latched denial a 401/403 from inside its window changes nothing |
| CapabilityTheorems.WindowDenialsCannotBlock | apps/console/hooks/use-console-capabilities.ts:69-100 | any number of them cannot block the recovery |
| CapabilityTheorems.InFlightMeansNewestOutstanding | apps/console/hooks/use-console-capabilities.ts:306-313 | the in-flight latch is set exactly while the newest request is outstanding |
| CapabilityTheorems.TimerNeverSupersedes | apps/console/hooks/use-serialized-periodic-load.ts:38-51 | a timer leaves an outstanding newest request alone and waits again |
| CapabilityTheorems.PollChainIsSingle | apps/console/hooks/use-serialized-periodic-load.ts:30-66 | a mounted poll is one timer or one request of its own, never both and never none |
| CapabilityTheorems.PollsNeverOverlap | apps/console/hooks/use-serialized-periodic-load.ts:53-59 | a run of polls alone has at most one request outstanding |
| CapabilityConsole.Negotiator.CapabilitiesAnswered | apps/console/hooks/use-console-capabilities.ts:68-313 | one answer on the refs is one settlement of the negotiation |
| CapabilityConsole.Negotiator.ApplyAuthoritativeCapabilityDenial | apps/console/hooks/use-console-capabilities.ts:69-100 | the denial rule and the watermark it raises |
| CapabilityConsole.Negotiator.ApplyTransientCapabilityOutage | apps/console/hooks/use-console-capabilities.ts:101-148 | the outage rule; the last negotiation is retained |
| CapabilityConsole.Negotiator.ApplyMissingCapabilityContract | apps/console/hooks/use-console-capabilities.ts:149-249 | the 404 and malformed-payload rule and which clear it applies |
| CapabilityConsole.Negotiator.ApplyNegotiation | apps/console/hooks/use-console-capabilities.ts:250-305 | the success rule, object reuse and the identity clear |
| CapabilityConsole.Negotiator.ClearAuthorizedConsoleFeeds | apps/console/components/console-dashboard.tsx:368-452 | the authorized clear, with and without a denial |
| CapabilityConsole.Negotiator.InvalidateIfContextChanged | apps/console/components/console-dashboard.tsx:663-675 | a changed context clears before the next request starts |
| CapabilityConsole.Negotiator.RenegotiateAfterMutationAuthorizationDenied | apps/console/components/console-dashboard.tsx:697-711 | the out-of-band denial closes the gate, covers started requests and asks again |
| CapabilityConsole.PeriodicLoad.Handle | apps/console/hooks/use-serialized-periodic-load.ts:30-66 | the chained poll, event by event; an error-free inventory is always current and the poll is always one chain |
| LogTailTheorems.LatchMeansActiveDenial | apps/console/hooks/use-workspace-log-tails.ts:81-93 | in every run the latch equals "some selected and listed stream is denied"; between a commit and its effect it can only be held too long |
| LogTailTheorems.DeniedStreamShowsOnlyErrors | apps/console/hooks/use-workspace-log-tails.ts:494-572 | a denied, readable stream shows error rows only and has no offset |
| LogTailTheorems.SnapshotsPostdateDenials | apps/console/hooks/use-workspace-log-tails.ts:380-446 | every snapshot on screen is of this visit and epoch and newer than its stream's denials |
| LogTailTheorems.RevokedReadsNeverShown | apps/console/hooks/use-workspace-log-tails.ts:502-509 | after an applied 401/403 no read of that stream started by then is shown again in the visit |
| LogTailTheorems.DenialEndsOnlyByOwnSuccess | apps/console/hooks/use-workspace-log-tails.ts:593-625 | a denial ends only by the stream's own newest 200, by leaving selection or listing, or with the visit |
| LogTailTheorems.DenialLatchesInFlightSiblings | apps/console/hooks/use-workspace-log-tails.ts:138-163 | a denial also latches every readable sibling whose newest read is unanswered |
| LogTailTheorems.FreshReadRecovers | apps/console/hooks/use-workspace-log-tails.ts:593-672 | one fresh 200 recovers its stream and releases the latch exactly when no other readable stream is denied |
| LogTailTheorems.WarningIsNewest | apps/console/hooks/use-workspace-log-tails.ts:574-592 | a stale warning is newer than every applied read and denial of its stream |
| LogTailTheorems.OffsetsNeverRewind | apps/console/lib/live-log-replay.ts:263-279 | while a stream's byte cursor is kept, no frame or snapshot moves it back |
| WorkspaceLogTails.LogTailsHook.Handle | apps/console/hooks/use-workspace-log-tails.ts:349-760 | one event on the hook's records is one step of the inspector; a readable denied stream holds the latch and shows only error rows |
| WorkspaceLogTails.LogTailsHook.LogTailAnswered | apps/console/hooks/use-workspace-log-tails.ts:380-672 | which answers are discarded, in the order the checks run |
| WorkspaceLogTails.LogTailsHook.PruneDeniedOutside | apps/console/hooks/use-workspace-log-tails.ts:66-79 | the loop keeps exactly the denials that can still be retried |
| WorkspaceLogTails.LogTailsHook.RecordDeniedAndInFlightSiblings | apps/console/hooks/use-workspace-log-tails.ts:144-163 | the loop adds exactly the readable in-flight streams and the denied one |
| WorkspaceLogTails.LogTailsHook.ApplyTailDenial | apps/console/hooks/use-workspace-log-tails.ts:478-572 | latch, watermark, prune, settle, publish and clear |
| WorkspaceLogTails.EntriesAfterTailSnapshot | apps/console/lib/live-log-replay.ts:228-253 | the loop keeps other streams whole, live text past the snapshot, and the snapshot |
| OverviewTheorems.RowsHaveOneOrigin | apps/console/hooks/use-console-overview-loader.ts:188-232 | in every run the rows are of the current epoch, of one query object, newer than every applied denial, and no workspace is listed twice |
| OverviewTheorems.DeniedConsoleAsksNothing | apps/console/hooks/use-console-overview-loader.ts:188-204 | while the console is denied no request of its epoch is outstanding |
| OverviewTheorems.DeniedRowsNeverReturn | apps/console/hooks/use-console-overview-loader.ts:263-346 | after an applied 401/403 only loads started later put rows on the list |
| OverviewTheorems.PollRecovers | apps/console/hooks/use-console-overview-loader.ts:655-823 | from every state outside a console denial one answered poll installs its page under the current query |
| OverviewTheorems.StepKeepsInv | apps/console/hooks/use-console-overview-loader.ts:450-951 | polls, continuations, lookups and history refreshes keep the list invariant in any interleaving |
| OverviewRotation.RotationRefreshesEveryRow | apps/console/hooks/use-console-overview-loader.ts:678-700 | over consecutive answered polls of a list that stands still, the history refreshes ask about every loaded row beyond page one exactly once, in order, within the API's batch limit, and start over |
| OverviewRotation.PollRefreshesBatch | apps/console/lib/overview-list.ts:132-156 | one such poll leaves the rows and refreshes the next batch of the history |
| OverviewContinuation.FilteredContinuationIsContiguous | apps/console/hooks/use-console-overview-loader.ts:525-735 | after Load More under a status filter every server row between the first cursor and the cursor kept is on the list |
| OverviewBackfill.ReplayIsBounded | apps/console/hooks/use-console-overview-loader.ts:525-643 | for any server no cursor is requested twice and at most fifty requests are made |
| OverviewBackfill.ReplayMissesNothing | apps/console/hooks/use-console-overview-loader.ts:552-612 | against a keyset pager a replay without warning fetched exactly the rows down to a boundary at or past the old one, and resumes there |
| OverviewBackfill.ReplayWarnsExactlyAtLimit | apps/console/hooks/use-console-overview-loader.ts:604-611 | the page limit is the only warning such a pager causes, and it is raised exactly when five thousand rows do not reach the old boundary |
| OverviewBackfill.AfterResumes | src/awf/service/workspace_observability.py:145-174 | the pager's next cursor resumes exactly where the page ended |
| OverviewBackfill.BackfillFilteredHistory | apps/console/hooks/use-console-overview-loader.ts:544-612 | the loop is the replay |
| Overview.AppendUniqueExtends | apps/console/lib/overview-list.ts:85-99 | appending keeps the list, adds exactly the page's new workspaces and never repeats one |
| Overview.AppendUniqueOverviewItems | apps/console/lib/overview-list.ts:85-99 | the loop is that merge |
| Overview.ReconcileOverviewFirstPage | apps/console/lib/overview-list.ts:106-129 | the two loops refresh page one and keep the loaded tail |
| Overview.ReconcileRetainedRows | apps/console/lib/overview-list.ts:163-184 | a history refresh drops exactly what is reported missing and never repeats a workspace |
| ConsoleOverviewLoader.LoaderHook.Handle | apps/console/hooks/use-console-overview-loader.ts:184-951 | one event on the hook's refs is one step of the loader; the rows stay of one epoch and one query, newer than every denial, without repeats |
| ConsoleOverviewLoader.LoaderHook.PageAnswered | apps/console/hooks/use-console-overview-loader.ts:613-823 | failure first, then freshness, then the write |
| ConsoleOverviewLoader.LoaderHook.ApplyFailure | apps/console/hooks/use-console-overview-loader.ts:263-387 | which 401/403 and outages count, and what they write |
| ConsoleOverviewLoader.LoaderHook.ApplySelected | apps/console/hooks/use-console-overview-loader.ts:450-520 | the selected row replaces an empty list or joins the loaded one |
| ConsoleOverviewLoader.LoaderHook.ApplyRetained | apps/console/hooks/use-console-overview-loader.ts:835-905 | the history refresh and the lookup it may start |
| LogTrim.TrimKeepsLongestSuffixes | apps/console/components/console-dashboard-shared.tsx:988-1008 | selected text is the longest fitting suffix in sort order, unselected text the longest suffix in what is left, and the buffer is sorted |
| LogTrim.TrimWithoutSelection | apps/console/components/console-dashboard-shared.tsx:992-996 | without a selection the whole buffer is the longest fitting suffix |
| LogTrim.TrimStaysUnderCap | apps/console/components/console-dashboard-shared.tsx:988-1008 | the cap holds for every input |
| LogTrim.TrimIdempotent | apps/console/components/console-dashboard-shared.tsx:988-1008 | trimming twice is trimming once |
| LogTrim.TrimProvenance | apps/console/components/console-dashboard-shared.tsx:967-986 | every kept entry is an offered entry, cut at most at its start |
| LogTrim.TrimStreamEntries | apps/console/components/console-dashboard-shared.tsx:967-986 | the backward loop and its running count |
| LogTrim.Trim | apps/console/components/console-dashboard-shared.tsx:988-1008 | the buffer trimmer |
| LogTrim.SortOrdered | apps/console/components/console-dashboard-shared.tsx:950-965 | a consistent buffer comes out ordered |
| LogTrim.KeepSort | apps/console/components/console-dashboard-shared.tsx:999-1001 | selecting from the sorted buffer is sorting the selection |
| LogTrim.TransitiveIffConsistent | apps/console/components/console-dashboard-shared.tsx:950-965 | the comparator is transitive on a buffer if and only if no untimed entry contradicts two times |
| LogTrim.SortsEveryArrangementIff | apps/console/components/console-dashboard-shared.tsx:992-992 | every arrangement of the same entries sorts if and only if the buffer is consistent |
| LogTrim.OrderedByTimeIsConsistent | apps/console/components/console-dashboard-shared.tsx:950-958 | times that agree with the stored order rule a conflict out |
| LogTrim.BuiltEntriesAreConsistent | apps/console/hooks/use-workspace-live-stream.ts:378-379 | frames built from one parsed time, the epoch excepted, are consistent |
| LogTrim.EpochFrameIsCyclic | apps/console/components/console-dashboard-log-fullscreen.tsx:1191-1192 | a frame stamped with the epoch and an unparsable one make the order cyclic |
| ListWindow.WorkspaceRowAtOffset | apps/console/components/console-dashboard-overview.tsx:679-691 | the binary search finds the first row ending past the offset, or the last row |
| ListWindow.WorkspaceRowsBeforeOffset | apps/console/components/console-dashboard-overview.tsx:693-705 | the binary search counts the rows starting before the offset |
| ListWindow.BuildRowOffsets | apps/console/components/console-dashboard-overview.tsx:1008-1017 | the offsets are prefix sums of the row heights |
| ListWindow.VisibleRowsCoverScreen | apps/console/components/console-dashboard-overview.tsx:1278-1291 | every row on screen is in the computed range, for any scroll position |
| ListWindow.VisibleRowsAreOnScreen | apps/console/components/console-dashboard-overview.tsx:1278-1291 | within the list the range holds nothing else |
| ListWindow.WindowCoversIffItFits | apps/console/components/console-dashboard-overview.tsx:1292-1309 | the window holds the overscanned range if and only if it spans at most a hundred rows |
| ListWindow.WindowShowsScreen | apps/console/components/console-dashboard-overview.tsx:1274-1313 | with at most 96 visible rows every row on screen and two each side are rendered |
| ListWindow.ChooseWindow | apps/console/components/console-dashboard-overview.tsx:1292-1309 | the window start, adjusted step by step |
| ScrollAnchor.SurvivingRowKeepsItsPlace | apps/console/components/console-dashboard-overview.tsx:1050-1093 | a surviving top row keeps its fraction under the viewport top and is rendered |
| ScrollAnchor.NearestSurvivorKeepsItsDistance | apps/console/components/console-dashboard-overview.tsx:1056-1071 | otherwise the nearest survivor keeps its exact pixel distance and is rendered |
| ScrollAnchor.AnchorFindsEverySurvivor | apps/console/components/console-dashboard-overview.tsx:1056-1068 | the list stays put only when no row survives |
| ScrollAnchor.OverscrolledAnchorLeavesItsRow | apps/console/components/console-dashboard-overview.tsx:1072-1078 | past the end of the old list the top row is left behind |
| ScrollAnchor.WorkspaceList.CommitGeometry | apps/console/components/console-dashboard-overview.tsx:1033-1093 | the layout effect, with its top-edge branch |
| ScrollAnchor.WorkspaceList.UpdateWindow | apps/console/components/console-dashboard-overview.tsx:1274-1313 | the scroll handler's window update |
| EventOrder.UpgradeFromUnordered | migrations/versions/e8f9a0b1c2d3_workspace_event_order.py:84-125 | from unordered events the orders are exactly 1..event_sequence and agree with time |
| EventOrder.UpgradeIsDenseIff | migrations/versions/e8f9a0b1c2d3_workspace_event_order.py:84-125 | with orders already present, that holds if and only if they rearrange their own row numbers and the sequence is not ahead |
| EventOrder.PreorderedEventCollides | migrations/versions/e8f9a0b1c2d3_workspace_event_order.py:84-103 | an event already numbered out of place breaks it |
| EventOrder.RowNumbersFollowTime | migrations/versions/e8f9a0b1c2d3_workspace_event_order.py:87-95 | row numbers are distinct, in 1..n, and follow time |
| EventOrder.DenseUsesEachOrderOnce | migrations/versions/e8f9a0b1c2d3_workspace_event_order.py:104-125 | dense orders use every number up to the sequence, by one event |
| EventOrder.InsertKeepsDense | migrations/versions/e8f9a0b1c2d3_workspace_event_order.py:40-60 | the trigger's insert takes the next order |
| MarkerBackfill.OrdersStayDense | migrations/versions/0f1e2d3c4b5a_backfill_auth_overlay_unmount_pending.py:291-325 | after the upgrade any run of trigger inserts and reservations keeps the orders exact and the backfilled ones unchanged |
| MarkerBackfill.LatestIsNewest | migrations/versions/0f1e2d3c4b5a_backfill_auth_overlay_unmount_pending.py:173-215 | row number one beats every competing event, and exists when one competes |
| MarkerBackfill.PassMarksExactlyWhatIsOwed | migrations/versions/0f1e2d3c4b5a_backfill_auth_overlay_unmount_pending.py:92-148 | one pass marks every workspace that owes a marker, in its release's cycle, changes no other, and leaves the effective release |
| MarkerBackfill.SecondPassInsertsNothing | migrations/versions/0f1e2d3c4b5a_backfill_auth_overlay_unmount_pending.py:245-288 | a second pass changes nothing |
| MarkerBackfill.MarkIsGuarded | migrations/versions/0f1e2d3c4b5a_backfill_auth_overlay_unmount_pending.py:291-350 | whatever was written since the scan, a marker is inserted only while its release rules and its cycle has none |
| EventMigrations.EventTables.UpgradeEventOrder | migrations/versions/e8f9a0b1c2d3_workspace_event_order.py:84-125 | the in-place upgrade of every workspace |
| EventMigrations.EventTables.Insert | migrations/versions/e8f9a0b1c2d3_workspace_event_order.py:40-60 | the trigger on one insert |
| EventMigrations.EventTables.BackfillAuthOverlayUnmountPending | migrations/versions/0f1e2d3c4b5a_backfill_auth_overlay_unmount_pending.py:92-148 | the loop marks each workspace once and counts the markers inserted |
| EventMigrations.BackfillIsIdempotent | migrations/versions/0f1e2d3c4b5a_backfill_auth_overlay_unmount_pending.py:92-148 | a second backfill of the table inserts nothing, whatever the clock |

## Left out

- Rendering, focus, themes, URL sync, banners, stream-state badges and error texts other than the capability error: presentation.
- `fetch`, `EventSource`, `AbortController` and payload parsing: every answer, frame, timeout and clock reading is an arbitrary event or parameter.
- Queued state updates: each callback's updates are flushed before the next event, except in `ListingQueue`, which models the queues but only as values.
- Deciding which automatic tail reads the inspector starts: any read of any stream may start at any time, which covers every plan. The column's own refresh effect is modelled in `TailRetry`.
- Fleet feeds, workspace detail loading and the inspector's own live stream beyond the frames it appends: their denial latches are arbitrary events here.
- Leaving and reopening a workspace is one step; the layout and passive halves of that visit change are not separated.
- Identifier collation: `localeCompare` is a rank carried by the stream identifier.
- Cursors are compared as values; a blank cursor is the same as none. The first-page health probe and the intermediate freshness checks of a load only give up earlier and are not separate steps.
- WorkspaceLogTails.EntriesAfterTailSnapshot: the part of a live frame past a snapshot is an arbitrary function of the entry, because its UTF-8 boundary arithmetic is not modelled.
- WorkspaceLogTails.LogTailsHook.Handle: the retry bookkeeping of failed automatic reads is not part of the state.
- ConsoleOverviewLoader.LoaderHook.Handle: the pending-lookup ref, has-more flags and history banners are not part of the state.
- ConsoleOverviewLoader.LoaderHook.PageAnswered: a replay's requests and the page after it settle in one step; the freshness checks between them only give up earlier.
- A batch answers only for workspaces it was asked about, each once, as `src/awf/service/workspace_observability.py:177-195` builds it; an answer that breaks this is not an event of the loader.
- CapabilityConsole.Negotiator.ClearAuthorizedConsoleFeeds: only the negotiation's own cells are modelled; the feeds it empties appear as events of their own models.
- OverviewBackfill.ReplayMissesNothing: assumes that a workspace's creation time does not change between the old list and the replay.
- Browser clamping and rounding of scroll positions: positions are reals.
- Database locking, timeouts, index builds, dialect differences and primary-key conflicts of a derived marker identifier.
- Writers that supply their own event order: the trigger passes such rows through, and `OrdersStayDense` covers runs without them.
