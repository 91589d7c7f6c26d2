# Codex taskbar: a model of its protocol, ledger and display logic

The taskbar program talks JSON-RPC to an App Server over pipes, keeps a local ledger of token usage,
arbitrates between authoritative and fallback data, and draws a trend curve. This project models the
parts of that whose correctness does not show in any single function, and proves what holds over
whole runs.

- `Transport`, `ReplyDesk`, `TransportSafety`, `TransportLogs`, `TransportShutdown`,
  `TransportTheorems`, `TransportStranding`, `TransportReady`, `TransportOrigins`, `TransportReports`:
  the four threads of the transport and any number of client and close calls as atomic steps on one
  state. Custody of reply senders is proved by refinement to an abstract desk; the wire, the events and
  what can be left behind are invariants, and every answer and event is traced back to the action of the
  run that caused it. Two expected properties do not hold: a posted request can be left without a word,
  and the ready flag can come back after the transport has begun to end. The runs that show it are
  proved reachable, and for each the exact condition is proved (`TransportStranding.LosingIff`,
  `TransportReady.ReadyAgainIff`).
- `LineCodec`: the buffered line reader against a plain split at newlines, and a printer whose output it
  reads back.
- `TrendCurve`: the monotone cubic interpolation over the reals, as a spline: one cubic for each
  segment.
- `Ledger`, `Days`, `LedgerTheorems`, `LedgerJournal`, `LedgerStore`, `LedgerTables`: the usage ledger
  as an object, its equality with a journal of unbounded entries, batch independence, and both
  persistence formats with the exact days that do not survive them.
- `Json`, `AppServerState`, `TokenFigures`, `Messages`, `Session`, `SessionTheorems`,
  `PublishedFigures`: sparse patches and full reads, the session's event loop, endpoint freshness and
  the isolation of accounts. Isolation is stated as non-interference: two sessions with different pasts
  publish the same after an account change. What is published is followed figure by figure from the JSON
  that said it to the taskbar.
- `Activity`, `Monitor`, `MonitorTheorems`, `MonitorStanding`, `PipelineTheorems`: the state behind the
  UI, and what reaches it from the session through a queue, including a reconnect after which a live
  quota is refused.
- `Tailer`, `Novelty`, `TailerTheorems`, `TailerFollowing`, `TailerModels`, `TailerRuns`,
  `TailerEvents`: windowed polls of logs that grow and give way to others, against full scans, with the
  exact condition under which a poll returns an old event again.
- `Layout`, `DailyUsage`, `Calendar`, `Pricing`, `Backoff`: greedy folding, calendar order of daily
  buckets, integer pricing, and the reconnect delay. `Common`, `Usage` and `Strings` hold shared
  notions.

Objects that the program updates in place are classes; each method is tied to a function of the old
state, and the theorems are about those functions. All statements are for every input, every run or
every interleaving; nothing is bounded.

Where the code and its comments disagree the model follows the code. The comment above
`apply_notification_endpoint_status` says that only notifications with a quota patch refresh the quota;
the code looks at the method name alone (`SessionTheorems.QuotaNoticeIff`). The event fingerprint
is meant to return an event once; it includes the carried-over model, so an event can come back under
another model (`TailerModels.ModelDrift`; `TailerFollowing.ComesBackIff` says exactly when). The curve
is said to pass through every anchor; with a gap below the epsilon guard it reaches the anchor's height
but not its X (`TrendCurve.CurveFollowsAnchors`). A codec with limit zero reports an overlong
unterminated remainder as a clean end (`LineCodec.OverlongRemainder`).

## Model

| member | source | states |
|---|---|---|
| TransportTheorems.RunIsSafe | crates/adapters-codex-app-server/src/transport.rs:265-304 | Every finite interleaving of clients, closers, supervisor, reader, writer and timeouts keeps all invariants below. |
| TransportTheorems.IdsAreUnique | crates/adapters-codex-app-server/src/transport.rs:446-457 | The compare-exchange loop, also when it fails spuriously, never gives two calls the same id, also not to a call refused afterwards, and every id is at least 2. |
| TransportTheorems.OneSenderOnePlace | crates/adapters-codex-app-server/src/transport.rs:266-302 | The reply sender of a posted call is in exactly one of queue, supervisor, pending map, reader, timeouts, answered, dropped; so at most one answer, and a successful answer carries the id of the call (section 5 of JSON-RPC 2.0). |
| TransportTheorems.StrangersHearNothing | crates/adapters-codex-app-server/src/transport.rs:459-468 | A waiter that has not posted a request has received nothing and nothing of it was dropped. |
| TransportTheorems.NoDuplicateIds | crates/adapters-codex-app-server/src/transport.rs:291-293 | The duplicate-id branch is dead: whenever an entry is about to be inserted its id is free. |
| TransportTheorems.WireOrder | crates/adapters-codex-app-server/src/transport.rs:595-641 | The outbound log is a prefix of initialize, initialized, request frames; everything after initialize only once the handshake was answered with a result (`TransportOrigins.WireNeedsAnswer` names that response); request frames carry pairwise different ids. |
| TransportTheorems.EventsAtMostOnce | crates/adapters-codex-app-server/src/transport.rs:278-282 | Ready and StartupFailed together at most once, Closed at most once, Eof and IoError together at most once. |
| TransportTheorems.AtMostOneStranded | crates/adapters-codex-app-server/src/transport.rs:648-663 | After the transport is dead at most one entry can be left in the pending map. |
| TransportTheorems.ReadyMeansAccepted | crates/adapters-codex-app-server/src/transport.rs:640-641 | Whenever the ready flag is set the handshake was answered with a result and both handshake frames are in the log. |
| TransportTheorems.NeverReadyAgain | crates/adapters-codex-app-server/src/transport.rs:266-276 | If the supervisor had stored the ready flag when the transport began to end, no later step makes it ready again; `TransportReady.ReadyAgainIff` has the exact condition. |
| TransportTheorems.EveryRequestAccounted | crates/adapters-codex-app-server/src/transport.rs:715-724 | When the threads have gone, every posted request has been answered, was dropped, or is still filed: exactly one of the three, once. |
| TransportTheorems.SentIsNeverDropped | crates/adapters-codex-app-server/src/transport.rs:664-673 | A request whose frame was handed to the writer is never dropped. |
| TransportTheorems.AtMostOneUnanswered | crates/adapters-codex-app-server/src/transport.rs:648-663 | When the threads have gone and the transport is dead, at most one posted request got neither an answer nor a closed channel; `TransportStranding.LosingIff` says when there can be one. |
| TransportOrigins.AnswersHaveOrigins | crates/adapters-codex-app-server/src/transport.rs:541-549 | In every interleaving a result goes back to a response with a result, an RPC error to a response with an error, that came while reading and found this id filed for this waiter; a timeout to the turn of this id with the timeouts; any other error to the failure it names. |
| TransportOrigins.WireNeedsAnswer | crates/adapters-codex-app-server/src/transport.rs:595-641 | `initialized` or a request frame is on the wire only after a response with a result to `initialize` found the handshake filed. |
| TransportOrigins.ReadyNeedsAnswer | crates/adapters-codex-app-server/src/transport.rs:640-641 | The ready flag is set only after such a response. |
| TransportOrigins.StepIsSourced | crates/adapters-codex-app-server/src/transport.rs:497-705 | No step says, or is about to say, anything that does not go back to something that has happened. |
| TransportReports.ResponsesArrive | crates/adapters-codex-app-server/src/transport.rs:541-549 | Every response that finds its request filed is what that waiter gets, or is in the hand of the reader on its way to it: with a result as success, with an error as RPC error. |
| TransportReports.EventsHaveOrigins | crates/adapters-codex-app-server/src/transport.rs:497-553 | Notifications, unexpected responses and protocol errors are reported exactly as they occur, in order; each event about the life of the transport goes back to what it names. |
| TransportTheorems.ReadyAfterDeath | crates/adapters-codex-app-server/src/transport.rs:640-641 | A run in which `ready` is set after the transport died: ready does not imply alive. |
| TransportStranding.NobodyStranded | crates/adapters-codex-app-server/src/transport.rs:648-724 | If no request is exposed when the pending map is about to be emptied, every continuation in which the threads go answers or visibly drops every posted request, exactly once. |
| TransportStranding.LosingIff | crates/adapters-codex-app-server/src/transport.rs:266-302 | When the pending map is about to be emptied some continuation loses a request exactly if the supervisor has let one in and not yet filed it and the writer still takes frames. |
| TransportStranding.RequestStranded | crates/adapters-codex-app-server/src/transport.rs:655-663 | Such a run exists: a posted request gets neither an answer nor a closed channel, and every thread is gone. |
| TransportReady.ReadyAgainIff | crates/adapters-codex-app-server/src/transport.rs:266-276 | After the ending thread has cleared the ready flag some continuation sets it again exactly if the handshake could still be completed, program point by program point. |
| TransportShutdown.StepKeepsEarly | crates/adapters-codex-app-server/src/transport.rs:568-600 | Until the handshake is registered no step of any thread ends the transport or puts a frame on the wire. |
| TransportSafety.StepRefines | crates/adapters-codex-app-server/src/transport.rs:497-735 | Each atomic step of any thread is one enabled operation of the abstract custody desk and keeps ids fresh. |
| TransportSafety.SupervisorWorks | crates/adapters-codex-app-server/src/transport.rs:568-687 | Every supervisor program point performs exactly the custody operation chosen for it and leaves calls and the id counter alone. |
| TransportSafety.ClientKeepsIds | crates/adapters-codex-app-server/src/transport.rs:446-457 | Load, compare-exchange, admission and posting keep handed-out ids at least 2, below the counter and distinct. |
| ReplyDesk.ApplyKeepsSound | crates/adapters-codex-app-server/src/transport.rs:266-302 | Every custody operation keeps each sender in exactly one place and each entry filed under its own waiter. |
| ReplyDesk.HandNeverDuplicate | crates/adapters-codex-app-server/src/transport.rs:284-296 | The request in the supervisor's hand never finds its id in the pending map. |
| TransportLogs.StepKeepsLog | crates/adapters-codex-app-server/src/transport.rs:568-687 | Each step keeps the wire and start-up verdict consistent with where the supervisor is. |
| TransportLogs.StepKeepsEnds | crates/adapters-codex-app-server/src/transport.rs:266-282 | Each step keeps Closed tied to the one winner of the closed flag and Eof/IoError tied to the one thread that cleared `alive`. |
| TransportLogs.StepKeepsStranding | crates/adapters-codex-app-server/src/transport.rs:266-276 | Each step keeps a dead transport from filing more than the one request already let in. |
| TransportShutdown.StepKeepsTidy | crates/adapters-codex-app-server/src/transport.rs:648-687 | Each step keeps the channel open until the supervisor leaves and empty once it is gone, the ready flag backed by the handshake, and the writer behind the log. |
| TransportShutdown.StepKeepsOver | crates/adapters-codex-app-server/src/transport.rs:266-276 | Once the flag is cleared by the thread that ends the transport, no step of any thread sets it. |
| LineCodec.ReadFrame | crates/adapters-codex-app-server/src/transport.rs:129-163 | The buffered loop gives the same outcome and consumes the same bytes as reading one line of the bytes themselves, for every chunking. |
| LineCodec.Absorb | crates/adapters-codex-app-server/src/transport.rs:139-158 | Copies what still fits of one stretch of the line and remembers when it did not. |
| LineCodec.ReadingIsSplitting | crates/adapters-codex-app-server/src/transport.rs:129-163 | Reading a stream to its end is classifying each newline-terminated line on its own length, so an overlong line never disturbs the next. |
| LineCodec.ReadingAnyStream | crates/adapters-codex-app-server/src/transport.rs:129-163 | The same for every byte string and both endings of the stream. |
| LineCodec.SplitIsJoin | crates/adapters-codex-app-server/src/transport.rs:129-163 | Splitting and joining at newlines are inverse on every byte string. |
| LineCodec.OverlongRemainder | crates/adapters-codex-app-server/src/transport.rs:136-141 | An overlong unterminated last line is reported exactly if the limit is at least one. |
| LineCodec.ReadBackEncoded | crates/adapters-codex-app-server/src/transport.rs:112-119 | Reading the concatenation of encoded values returns exactly their payloads in order (section 7 of RFC 8259: no raw newline inside strings). |
| TrendCurve.EndpointTangent | crates/platform-windows/src/render.rs:1358-1367 | The endpoint tangent is the three-point estimate clamped between 0 and three times the endpoint slope. |
| TrendCurve.InteriorTangent | crates/platform-windows/src/render.rs:1340-1350 | Zero at extrema and flats, the weighted harmonic mean of the neighbouring slopes elsewhere. |
| TrendCurve.MonotoneTangents | crates/platform-windows/src/render.rs:1323-1352 | The tangent table in place: clamped ends, zero at extrema and flats, weighted harmonic means elsewhere. |
| TrendCurve.TangentsAdmissible | crates/platform-windows/src/render.rs:1323-1352 | Every tangent lies between 0 and three times each adjacent slope. |
| TrendCurve.CornersMonotone | crates/platform-windows/src/render.rs:1311-1315 | The three cubic weights that make up a segment are monotone in the parameter. |
| TrendCurve.SegmentIsMonotone | crates/platform-windows/src/render.rs:1308-1318 | Inside a segment the height follows the direction of its two anchors. |
| TrendCurve.SegmentStaysInRange | crates/platform-windows/src/render.rs:1295-1297 | Inside a segment the height never leaves the range of its two end values. |
| TrendCurve.MonotoneCubicCurve | crates/platform-windows/src/render.rs:1298-1321 | The curve draws, between every two anchors, the one cubic that has their heights and, over the width, their tangents in the table; or it is the anchors themselves for fewer than two anchors or no subdivisions. |
| TrendCurve.SampleSegments | crates/platform-windows/src/render.rs:1306-1319 | The two nested loops append, segment by segment, equally spaced points of the cubics that join the anchors with the given tangents. |
| TrendCurve.SampledIsSpline | crates/platform-windows/src/render.rs:1306-1319 | Every segment has four coefficients: all its samples have the heights of that cubic, its ends are the heights of the anchors and its slopes there are width times their tangents. |
| TrendCurve.JoinIsUnique | crates/platform-windows/src/render.rs:1308-1318 | Two heights and two end slopes determine the cubic. |
| TrendCurve.CurveFollowsAnchors | crates/platform-windows/src/render.rs:1298-1321 | Every sample stays in its segment's range, each segment ends at its anchor's height, and at the anchor itself exactly if the gap is at least the epsilon guard. |
| Ledger.LocalUsageLedger.Observe | crates/application/src/local_usage_ledger.rs:318-336 | Baselines become the last readings, the saturated sum of rises goes to the day and hour, old days are pruned; true exactly if something rose. |
| Ledger.LocalUsageLedger.ReplaceSessionDay | crates/application/src/local_usage_ledger.rs:346-361 | A full scan replaces the day unless it is already equal. |
| Ledger.LocalUsageLedger.ObserveSessionEvent | crates/application/src/local_usage_ledger.rs:371-388 | An event with a positive display total is added to its day and hour; anything else changes nothing. |
| Ledger.LocalUsageLedger.PruneDays | crates/application/src/local_usage_ledger.rs:457-462 | Keeps exactly the newest retained days, with their contents untouched and everything else unchanged. |
| Ledger.LocalUsageLedger.SetRetentionDays | crates/application/src/local_usage_ledger.rs:450-455 | Clamps to 1..365, prunes, and marks the ledger dirty exactly if days were dropped. |
| Ledger.LocalUsageLedger.RecentDays | crates/application/src/local_usage_ledger.rs:415-437 | The newest `limit` days, ascending, with their stored contents. |
| Ledger.LocalUsageLedger.Clear | crates/application/src/local_usage_ledger.rs:146-150 | Baselines and days are gone and the ledger is dirty. |
| Ledger.LocalUsageLedger.MarkPersisted | crates/application/src/local_usage_ledger.rs:444-446 | Only the dirty flag is cleared. |
| Days.NewestAreUnique | crates/application/src/local_usage_ledger.rs:457-462 | There is one set of newest days; dropping the oldest again and again ends in it. |
| Days.EnteringTwice | crates/application/src/local_usage_ledger.rs:332-335 | Entering a day, pruning, entering it again and pruning again is entering it once, even if it is pruned at once. |
| LedgerTheorems.ObservingInBatches | crates/application/src/local_usage_ledger.rs:318-336 | One frame A followed by B leaves the same ledger as two frames at the same clock, with repeated threads, saturation and pruning. |
| LedgerTheorems.GainIsSteps | crates/application/src/local_usage_ledger.rs:321-326 | What a frame adds by the baseline map is the sum of rises over the whole log of readings since the last clear. |
| LedgerTheorems.StepsByThread | crates/application/src/local_usage_ledger.rs:321-326 | That sum is, over the threads, the sum of each thread's positive steps after its first sighting. |
| LedgerJournal.LedgerIsItsJournal | crates/application/src/local_usage_ledger.rs:119-137 | Over every run from empty of observe, record, replace, clear, retention and persisting: every retained day and hour is the exact sum of its journal entries cut off at 64 bits, and no more days are held than retained. |
| LedgerJournal.HoursAddUp | crates/application/src/local_usage_ledger.rs:119-137 | The exact sums of the 24 hours add up to the exact sum of the day. |
| LedgerJournal.SummaryPushed | crates/application/src/local_usage_ledger.rs:119-137 | Adding one event with saturating counters is appending it to the exact list. |
| LedgerJournal.ReplacementIsSummary | crates/application/src/local_usage_ledger.rs:351-354 | A replaced day is the summary of its events. |
| LedgerStore.FromPersisted | crates/application/src/local_usage_ledger.rs:153-189 | Loads a list of days: later duplicates win, each day repaired, the newest 365 kept. |
| LedgerStore.Persisted | crates/application/src/local_usage_ledger.rs:194-215 | Lists all days ascending by key. |
| LedgerStore.PersistingKeepsIff | crates/application/src/local_usage_ledger.rs:153-215 | Save then load is the identity exactly on at most 365 days whose totals equal input plus output wherever there is detail. |
| LedgerStore.RestoringTwice | crates/application/src/local_usage_ledger.rs:153-215 | What was loaded from any list survives every later save and load. |
| LedgerStore.MixedDayIff | crates/application/src/local_usage_ledger.rs:156-172 | For every list of entries: the day they make is left alone on load exactly if its exact sum and that of each of its 24 hours has no detail, or equals input plus output up to 64 bits. |
| LedgerStore.LooseIff | crates/application/src/local_usage_ledger.rs:156-172 | Below the 64-bit limit a sum with detail is balanced exactly if the parts without detail cancel out. |
| LedgerStore.MixedDayShrinks | crates/application/src/local_usage_ledger.rs:318-336 | A gain seen by counters and a detailed event on one day: the gain is lost on reload, for all counts. |
| LedgerTables.LoadSqlite | crates/application/src/local_usage_ledger.rs:219-285 | Loads both tables row by row; dirty exactly if a row that is taken over had to be repaired. |
| LedgerTables.SaveSqlite | crates/application/src/local_usage_ledger.rs:289-315 | Writes every day and every hour with tokens, and marks the ledger clean. |
| LedgerTables.LoadTables | crates/application/src/local_usage_ledger.rs:224-283 | The loops over day rows and hour rows build the repaired days, passing over hours without a day, and tell whether any row taken over was repaired. |
| LedgerTables.SaveTables | crates/application/src/local_usage_ledger.rs:294-312 | The loops over days and hours write one row per day and one per hour with tokens. |
| LedgerTables.SavingKeepsIff | crates/application/src/local_usage_ledger.rs:219-315 | Save then load is the identity exactly if no row needs repair and no hour holds anything without tokens. |
| LedgerTables.SecondLoadIsClean | crates/application/src/local_usage_ledger.rs:219-315 | Whatever the tables hold, load, save and load again reports no repair. |
| LedgerTables.SecondLoadKeepsIff | crates/application/src/local_usage_ledger.rs:219-315 | What was loaded survives the next save and load exactly if every hour with a cost has tokens. |
| Json.MergeObject | crates/adapters-codex-app-server/src/state.rs:698-711 | The recursive loop over the patch computes the sparse merge. |
| Json.MergingTwice | crates/adapters-codex-app-server/src/state.rs:698-711 | Merging a patch twice is merging it once, at any depth. |
| Json.SilenceKeeps | crates/adapters-codex-app-server/src/state.rs:698-711 | A null or missing entry anywhere on a path never changes what is stored there. |
| Json.PatchArrives | crates/adapters-codex-app-server/src/state.rs:698-711 | Every other leaf of the patch is stored. |
| Json.MergedKeys | crates/adapters-codex-app-server/src/state.rs:698-711 | No key is ever removed and only non-null entries are added. |
| Json.LastWordStands | crates/adapters-codex-app-server/src/state.rs:698-711 | Over any run of patches a path holds what the last patch that spoke of it said. |
| AppServerState.LimitsTwice | crates/adapters-codex-app-server/src/state.rs:246-258 | A rate-limit notification received twice changes nothing the second time. |
| AppServerState.WindowsPersist | crates/adapters-codex-app-server/src/state.rs:246-258 | No run of notifications makes a known window disappear, and one that never mentions a window leaves it exactly as it was. |
| AppServerState.ReadForgets | crates/adapters-codex-app-server/src/state.rs:263-278 | Whatever was known, patched in or read before a full read, the limits are those of that read and the words after it. |
| AppServerState.ReadHasItsWindows | crates/adapters-codex-app-server/src/state.rs:263-278 | Right after a full read a window is known exactly if the read carries it. |
| AppServerState.AppServer.ReplaceRateLimits | crates/adapters-codex-app-server/src/state.rs:263-278 | Valid exactly if limits are found; then the state is that of the response alone, otherwise unchanged. |
| AppServerState.AppServer.ReplaceAccount | crates/adapters-codex-app-server/src/state.rs:238-243 | A usable account replaces the old one in full; anything else changes nothing. |
| AppServerState.AppServer.ReplaceAccountUsage | crates/adapters-codex-app-server/src/state.rs:281-291 | A usage report with a summary replaces the old one; anything else changes nothing. |
| AppServerState.AppServer.Forget | crates/adapters-codex-app-server/src/session.rs:154-162 | Nothing of the old account is left. |
| AppServerState.FindPreferred | crates/adapters-codex-app-server/src/state.rs:451-468 | The codex entry by key, else the first entry named codex in key order, else the only limits. |
| AppServerState.TokensTwice | crates/adapters-codex-app-server/src/state.rs:374-430 | A token notification received twice changes nothing the second time, though its three layers may disagree. |
| TokenFigures.FigureMerged | crates/adapters-codex-app-server/src/state.rs:374-449 | Every running count, count of the last turn and the context window takes what the notification says of it and is otherwise kept; what is said is read off a table of its own: the names of each figure and the objects they are looked up in. |
| TokenFigures.SaidAt | crates/adapters-codex-app-server/src/state.rs:406-449 | A count is said exactly if some place holds one under one of its names: the first place in order (running total, usage, the object itself), and there the first name. |
| TokenFigures.TokensHoldLastSaid | crates/adapters-codex-app-server/src/state.rs:374-449 | Over any run of token notifications every one of these figures holds the last value said, and no known one disappears. |
| Messages.LimitsNotice | crates/adapters-codex-app-server/src/state.rs:157-183 | Of a rate-limit notification each window follows the object under its own name, and nothing else changes. |
| Messages.TokensNotice | crates/adapters-codex-app-server/src/state.rs:157-183 | Of a token notification each figure takes what the patch says of it, and nothing else changes. |
| Messages.AccountNotice | crates/adapters-codex-app-server/src/state.rs:228-236 | Of an account notification each plain field is taken over unless it is null, and nothing else changes. |
| Messages.ActivityNotice | crates/adapters-codex-app-server/src/state.rs:157-183 | What a thread does is filed under that thread, all other threads and everything else stay. |
| Messages.AccountIsRead | crates/adapters-codex-app-server/src/state.rs:238-243 | A full account read holds the fields of the account object and the flag beside it. |
| Messages.LimitsAreRead | crates/adapters-codex-app-server/src/state.rs:451-468 | The limits listed for codex are read before the general ones, and these where nothing is listed. |
| AppServerState.AppServer.ApplyNotification | crates/adapters-codex-app-server/src/state.rs:157-183 | Each method name patches its own part and nothing else; a thread event is also filed under its thread with its time. |
| Session.CodexSession.Refresh | crates/adapters-codex-app-server/src/session.rs:600-662 | The three reads succeed or fail on their own; revision counts the successes; one snapshot is published. |
| Session.CodexSession.ApplyResponse | crates/adapters-codex-app-server/src/session.rs:691-716 | Each kind of answer replaces exactly its own part, if it is usable. |
| Session.CodexSession.Emit | crates/adapters-codex-app-server/src/session.rs:731-759 | The published update is that of the current state, with the given flag, health and time; `PublishedFigures` says of every part where it comes from. |
| Session.TakeSnapshot | crates/adapters-codex-app-server/src/state.rs:86-104 | The loop over the stored windows: the first of 300 minutes is the five-hour value, the first of 10080 the weekly one, all others are passed over. |
| Session.CodexSession.Complete | crates/adapters-codex-app-server/src/session.rs:674-689 | A usable reply replaces its part and marks its endpoint live; any other degrades only that endpoint. |
| Session.CodexSession.Note | crates/adapters-codex-app-server/src/session.rs:452-470 | An account change empties state and tracker before its own patch is applied; a rate-limit notification marks the quota live. |
| Session.CodexSession.Handle | crates/adapters-codex-app-server/src/session.rs:410-559 | One event of the loop, including end, trouble and cancellation: the new state and the one update it publishes. |
| SessionTheorems.EndpointsAsDeserved | crates/adapters-codex-app-server/src/session.rs:99-139 | In every run an endpoint is unavailable iff it never succeeded in this generation, live iff its latest outcome was a success with no disconnect since, and keeps the time of its own last success. |
| SessionTheorems.AggregateAsDeserved | crates/domain/src/official.rs:196-214 | The card is live iff all three endpoints are, unavailable iff none ever succeeded. |
| SessionTheorems.FailuresAreIsolated | crates/adapters-codex-app-server/src/session.rs:600-662 | What happens to the other endpoints changes neither data nor status of this one. |
| SessionTheorems.ResetOncePerGeneration | crates/adapters-codex-app-server/src/session.rs:472-495 | Over every run: each account generation after the opening one has exactly one update with the reset flag, and it is the first of that generation. |
| SessionTheorems.ResetIsFirst | crates/adapters-codex-app-server/src/session.rs:472-495 | An update carries the flag exactly if it is the first of its generation and that is not the opening one. |
| SessionTheorems.NoResetAtFirst | crates/adapters-codex-app-server/src/session.rs:472-495 | No update of the opening generation carries the flag. |
| SessionTheorems.NothingCrossesAccounts | crates/adapters-codex-app-server/src/session.rs:154-162 | After an account change everything published is the same, up to the revision number, whatever went before. |
| SessionTheorems.QuotaNoticeIff | crates/adapters-codex-app-server/src/session.rs:135-139 | For every state and every rate-limit notification: the quota counts as just read; a window changes exactly if the patch opens it or a readable field differs; both are published absent, and live, exactly if neither is left with a shown length. |
| SessionTheorems.EmptyPatchLooksLive | crates/adapters-codex-app-server/src/session.rs:135-139 | So a notification without a window object makes any session that knows no shown window report both absent with a live quota. |
| PublishedFigures.LimitsFollow | crates/adapters-codex-app-server/src/state.rs:713-744 | A patch leaves behind in each window, under its own name, every readable field as given and every other as it was; a full read starts from nothing. |
| PublishedFigures.QuotaIsPublished | crates/adapters-codex-app-server/src/state.rs:86-104 | In every published update the five-hour value is the first stored window of 300 minutes and the weekly one the first of 10080: its reset time, its percentage moved into 0 to 100, used and remaining adding up to 100; missing exactly if no stored window has that length. |
| PublishedFigures.TokensArePublished | crates/adapters-codex-app-server/src/session.rs:731-759 | Every published count is the one held for that figure, with the time it was said. |
| PublishedFigures.StatusesArePublished | crates/adapters-codex-app-server/src/state.rs:318-372 | Each published endpoint status is the one its history deserves, and the card carries the latest of the three successes. |
| PublishedFigures.HealthAsDeserved | crates/adapters-codex-app-server/src/session.rs:410-559 | Over every run the revision counts successful reads and notifications, the health is that of the last round, notice, trouble or end, and the age that of the last data. |
| PublishedFigures.ActivityIsPublished | crates/adapters-codex-app-server/src/state.rs:195-217 | Every update shows the most urgent of the threads at work or at rest for at most ten seconds, each by its last word since the account changed; without any, the last word heard. |
| PublishedFigures.DetailsAreRead | crates/adapters-codex-app-server/src/state.rs:318-372 | Each published detail is read from its own place where it has the right kind. |
| PublishedFigures.TaskbarShowsPublished | apps/codex-taskbar/src/official_runtime.rs:1013-1035 | A quota on the taskbar was published, live and in that place, by one of the updates received, whatever local steps came between. |
| PublishedFigures.TaskbarTellsTruth | apps/codex-taskbar/src/official_runtime.rs:1013-1035 | So it tells of the first window of its length that the session had stored when it published that update. |
| Monitor.MonitorState.ApplyAuthoritative | crates/application/src/monitor.rs:68-84 | Accepted exactly if not older by revision, then time; both windows and both marks change together or not at all. |
| Monitor.MonitorState.ApplyTokenUsage | crates/application/src/monitor.rs:113-140 | An older observation is refused; a missing last turn keeps the known one; a local today survives. |
| Monitor.MonitorState.ApplyLocalTodayUsage | crates/application/src/monitor.rs:144-162 | A local count never replaces a live official one; the observation time never falls. |
| Monitor.MonitorState.ResetAccountScopedState | crates/application/src/monitor.rs:58-63 | Windows, usage and official data are blank; activity, revision and time stay. |
| Monitor.MonitorState.ApplySessionFallback | crates/application/src/monitor.rs:93-96 | Fills windows that are unknown and leaves all others. |
| Monitor.MonitorState.UpdateActivityAt | crates/application/src/monitor.rs:104-110 | The entry time changes exactly with the aggregated activity. |
| Monitor.MonitorCoordinator.Apply | crates/application/src/coordinator.rs:53-87 | Each event changes exactly its part of the picture; the result says whether it was taken. |
| Activity.Aggregate | crates/domain/src/activity.rs:92-94 | The state with the highest priority among those given, unknown when there is none. |
| Activity.Highest | crates/adapters-codex-app-server/src/state.rs:195-208 | Of the states of all threads that count the one with the highest priority. |
| MonitorTheorems.ShownIsSane | crates/domain/src/quota.rs:73-125 | In every reachable state a window is present iff it has a value and fresh iff it comes from the App Server, an absence is always fresh, and usage is fresh iff its source is live. |
| MonitorTheorems.WindowsReportStanding | crates/domain/src/quota.rs:73-125 | Over every run both windows report the last accepted and not revoked snapshot, value or absence; without one they hold at most a fallback. |
| MonitorTheorems.VisibleIffStanding | crates/domain/src/quota.rs:122-125 | A taskbar value is shown iff the standing snapshot has that window, and is its value. |
| MonitorStanding.WindowShowsStanding | crates/domain/src/quota.rs:73-120 | Over every run each window shows, in all its fields, the word that stands for it: the last accepted snapshot, else the first fallback since the limits were lost, else nothing; and the last value that stood since the reset. |
| MonitorStanding.MarksStand | crates/application/src/monitor.rs:68-84 | Revision and time are those of the last accepted snapshot, or the time of a later loss. |
| MonitorStanding.UsageShowsStanding | crates/application/src/monitor.rs:113-162 | Over every run each part of the token usage shows the report or local count that stands for it, with its source: what a later report without it leaves standing, and what losing the source takes back. |
| MonitorStanding.DayIsShown | crates/domain/src/usage.rs:98-117 | Of today: a local count yields to the App Server's day while its report stands, survives a report without a day and the loss of the source. |
| MonitorStanding.TurnIsShown | crates/domain/src/usage.rs:98-117 | Of the last turn: a report without one leaves it standing, and losing the source revokes it unless it came from a session log. |
| MonitorStanding.RestShowsStanding | crates/application/src/monitor.rs:104-110 | The lamp shows the states told last, with the time their top was first told; the details are those told last, every status in them old once the source is lost. |
| MonitorTheorems.FallbacksNeverOverride | crates/domain/src/quota.rs:104-120 | No number of session fallbacks changes a present or absent window. |
| MonitorTheorems.NeverBack | crates/application/src/monitor.rs:68-84 | (revision, observation time) never decreases lexicographically over any run. |
| MonitorTheorems.StepsHold | crates/application/src/monitor.rs:58-63 | Every account value held was brought by one of the steps, or was held before and no reset came. |
| MonitorTheorems.StepHolds | crates/application/src/monitor.rs:58-63 | The same for one step: a reset leaves nothing behind. |
| MonitorTheorems.ApplySessionUpdate | apps/codex-taskbar/src/official_runtime.rs:1013-1035 | One session update becomes this exact sequence of monitor changes: reset, details, live quota, concrete activity, tokens, loss of authority. |
| PipelineTheorems.MonitorHoldsOneAccount | apps/codex-taskbar/src/official_runtime.rs:1013-1017 | Once the first update after an account change is taken in, however late, every account value the monitor holds was brought by a local step after that, or is in an update that a session which saw nothing before that change would publish. |
| PipelineTheorems.HeldSinceReset | apps/codex-taskbar/src/official_runtime.rs:1013-1035 | Since an update that asked for a reset, all that is held was carried by it or a later update received, or brought by a local step after it. |
| PipelineTheorems.PublishedAfresh | crates/adapters-codex-app-server/src/session.rs:452-495 | What is published after an account change is what a session with no past would publish. |
| PipelineTheorems.NeverAhead | crates/adapters-codex-app-server/src/session.rs:405-405 | However far the monitor lags behind the queue of one run and whatever the clocks say, its revision is never beyond the last update received. |
| PipelineTheorems.NewDataIsShown | crates/application/src/monitor.rs:68-84 | So the live quota of an update that brings new data is never refused, however late, and shown while the session is healthy. |
| PipelineTheorems.NeverLater | crates/application/src/monitor.rs:68-84 | If the clock never runs back and each update is received before the next is published, the monitor's time is never ahead of the next update. |
| PipelineTheorems.LiveQuotaIsShown | crates/application/src/monitor.rs:68-84 | Then every live quota is accepted, also one without new data, and shown while the session is healthy. |
| PipelineTheorems.ReconnectIff | crates/application/src/monitor.rs:68-73 | Across runs a live quota is shown exactly if it is not older by revision and time, otherwise the windows stay as they were. |
| PipelineTheorems.AfterOneRun | crates/adapters-codex-app-server/src/session.rs:496-514 | After one run with three successful reads and its end, both windows are unknown and the monitor keeps revision 3. |
| PipelineTheorems.ReconnectHidesQuota | crates/adapters-codex-app-server/src/session.rs:405-405 | The next run's first quota has revision 1: live on the card, refused by the windows. |
| Tailer.SessionTokenTailer.Poll | apps/codex-taskbar/src/session_token_fallback.rs:69-116 | A poll as bootstrap, file switch or tail read: new state and returned batch. |
| Tailer.SessionTokenTailer.ReadTokenEvents | apps/codex-taskbar/src/session_token_fallback.rs:231-250 | The loop over the lines with the model carried over; a count without a time stamp gets the day and the fallback hour of the read. |
| Tailer.SessionTokenTailer.Accept | apps/codex-taskbar/src/session_token_fallback.rs:102-115 | Keeps the events whose fingerprint is new, each once, and remembers all of them. |
| Tailer.SessionTokenTailer.Bootstrap | apps/codex-taskbar/src/session_token_fallback.rs:81-91 | The loop over the files of the day, with model and fingerprints carried from file to file. |
| Tailer.ReadingOn | apps/codex-taskbar/src/session_token_fallback.rs:83-91 | Reading two stretches one after the other is reading them at once. |
| TailerTheorems.NothingTwice | apps/codex-taskbar/src/session_token_fallback.rs:69-116 | Within one day no fingerprint is returned twice, whatever the files hold and however the search moves. |
| TailerTheorems.WindowIsSuffix | apps/codex-taskbar/src/session_token_fallback.rs:219-229 | If what follows the complete lines fits strictly inside the window, the tail read yields a whole suffix of the file's lines. |
| TailerRuns.SwitchReadsAll | apps/codex-taskbar/src/session_token_fallback.rs:96-116 | A poll that moves to another file returns exactly the events of all its lines, of whatever length, under no carried model, whose fingerprints were not seen. |
| TailerRuns.PollsAgreeWithScans | apps/codex-taskbar/src/session_token_fallback.rs:69-116 | Over any run of polls that follow files as they grow, vanish and give way to others, the events returned are exactly those of full scans of these files one after the other, each fingerprint once and in order; each growth has to be quiet in the sense of `TailerFollowing.NothingReturnsIff` and reached back to. |
| TailerRuns.PollsAgreeWithScan | apps/codex-taskbar/src/session_token_fallback.rs:69-116 | While one growing file is all there is, they are those of one deduplicated full scan of it. |
| TailerRuns.SwitchKeepsUp | apps/codex-taskbar/src/session_token_fallback.rs:96-116 | A poll that moves to another file is again where a full scan would be. |
| TailerEvents.EventsAreReported | apps/codex-taskbar/src/session_token_fallback.rs:212-248 | An event is read exactly if a line reports it for the day: its counts, its own time or else that of the read, its own model or else the last one named before it or else the one carried. |
| TailerEvents.FingerprintTells | apps/codex-taskbar/src/session_token_fallback.rs:328-353 | Events with all counts share a fingerprint exactly if they agree in time stamp, counts and model, a blank model being none; the local hour does not matter. |
| TailerFollowing.PollKeepsUpIff | apps/codex-taskbar/src/session_token_fallback.rs:93-116 | One poll after one growth brings the tailer up to a full scan of all of it exactly if the old events that pass as new are the first of the new ones; there is none exactly if no line comes back. |
| TailerFollowing.ComesBackIff | apps/codex-taskbar/src/session_token_fallback.rs:234-248 | A line read again passes as new exactly if it and the lines since the start of the window name no model and its fingerprint under the carried model was not seen. |
| TailerFollowing.PollKeepsUp | apps/codex-taskbar/src/session_token_fallback.rs:93-116 | So one poll keeps up whenever no line comes back from where it starts to read. |
| TailerModels.ShortFileIsQuiet | apps/codex-taskbar/src/session_token_fallback.rs:219-248 | While the file fits the window nothing comes back, however often the model changes, if each count that needs a model comes after a line that names one. |
| TailerModels.FirstNames | apps/codex-taskbar/src/session_token_fallback.rs:234-248 | A file whose first line names a model meets that condition. |
| TailerModels.OneModelIsQuiet | apps/codex-taskbar/src/session_token_fallback.rs:234-248 | In a session that keeps to one model, named before its first count, nothing comes back from any start. |
| TailerModels.ModelDrift | apps/codex-taskbar/src/session_token_fallback.rs:212-248 | A count before the first model line is returned again by the second poll under that model. |
| Novelty.UnseenKeys | apps/codex-taskbar/src/session_token_fallback.rs:102-115 | What passes the filter has exactly the unseen fingerprints, none twice. |
| Novelty.CatchingUpIff | apps/codex-taskbar/src/session_token_fallback.rs:102-115 | Whatever is read again: filtering two reads gives the filtered whole exactly if what passes once more is the first of what is new. |
| Layout.OrderedVisibleItems | crates/domain/src/layout.rs:42-46 | The visible items, each once, by order and then by position. |
| Layout.FindLast | apps/codex-taskbar/src/lib.rs:896-904 | The item to fold next has the lowest priority and is the rightmost of those. |
| Layout.FoldingKeepsTop | apps/codex-taskbar/src/lib.rs:896-906 | Folding it leaves the next shorter prefix of the ranking. |
| Layout.Fold | apps/codex-taskbar/src/lib.rs:894-908 | The folding loop keeps, in display order, the longest prefix of the ranking by priority and position that fits the budget, or the single top item. |
| Layout.TopIsUnique | apps/codex-taskbar/src/lib.rs:896-905 | There is exactly one prefix of the ranking of each length. |
| Layout.BestFitIsUnique | apps/codex-taskbar/src/lib.rs:894-908 | The result does not depend on how it is found. |
| Layout.FittedDisplayItems | apps/codex-taskbar/src/lib.rs:876-909 | Ordered, reduced to what can be drawn and folded: the best fit of the visible items that have something to show. |
| Layout.FittedIsUnique | apps/codex-taskbar/src/lib.rs:876-909 | A configuration, the kinds with a text and a width determine that layout. |
| Layout.RoomyKeepsAll | apps/codex-taskbar/src/lib.rs:894-908 | If all that can be drawn fits, nothing is folded. |
| DailyUsage.TextOrderIsDateOrder | crates/adapters-codex-app-server/src/state.rs:636-659 | The text order of accepted dates (full-date, section 5.6 of RFC 3339) is the order of year, month and day. |
| DailyUsage.BelowIsLess | crates/adapters-codex-app-server/src/state.rs:636-659 | Digit strings of one length are ordered as the numbers they write. |
| DailyUsage.Latest | crates/adapters-codex-app-server/src/state.rs:631-632 | Of a map by date, the latest ninety entries in order. |
| DailyUsage.ParseDailyUsageBuckets | crates/adapters-codex-app-server/src/state.rs:615-633 | At most ninety days in strict calendar order, each with the last readable value of its date; a readable date is left out only for ninety later ones. |
| Calendar.TomorrowIsNext | crates/adapters-codex-app-server/src/state.rs:651-658 | Counted by division alone, every accepted date is followed by the next day, at the end of a month, of February and of a year. |
| Calendar.EveryDayIsADate | crates/adapters-codex-app-server/src/state.rs:636-659 | Every day from the first of January of the year 1 on is exactly one accepted date of the Gregorian calendar. |
| Calendar.EarlierIsSmaller | crates/adapters-codex-app-server/src/state.rs:636-659 | The order by year, month and day is the order of the day numbers. |
| Calendar.TextOrderIsTime | crates/adapters-codex-app-server/src/state.rs:618-659 | Of two accepted texts the lesser is the earlier day, so the map of buckets is in order of time. |
| Calendar.BucketIsRead | crates/adapters-codex-app-server/src/state.rs:620-629 | A bucket is read exactly from an object that sends an accepted date and a count, each under the first usable of its names. |
| Calendar.WrittenCountIsRead | crates/adapters-codex-app-server/src/state.rs:665-667 | A count written as text is read back up to the 64-bit limit and not beyond. |
| Pricing.SplitIsDisjoint | apps/codex-taskbar/src/lib.rs:561-564 | Input splits into cached, written and other tokens that sum to it; no part exceeds what was reported, and none falls short of it while a later part has any. |
| Pricing.NeverOverflows | apps/codex-taskbar/src/lib.rs:561-577 | No intermediate value exceeds 128 bits for any counts and any listed model. |
| Pricing.PriceIsListed | apps/codex-taskbar/src/lib.rs:445-536 | A model has a price exactly if its canonical name is listed: cached input costs a tenth of input, written input where billed apart a quarter more, output a fixed multiple. |
| Pricing.AmountIsRoundedOnce | apps/codex-taskbar/src/lib.rs:561-579 | The two integer divisions together round the exact cost down once: long contexts cost twice the input and one and a half times the output price. |
| Pricing.CostIff | apps/codex-taskbar/src/lib.rs:555-579 | A cost is given exactly for a listed model and known counts whose exact cost fits 64 bits, and is that cost rounded down. |
| Pricing.AmountIsMonotone | apps/codex-taskbar/src/lib.rs:555-579 | The amount never falls when input or output grows, across the long-context threshold. |
| Pricing.CostIsMonotone | apps/codex-taskbar/src/lib.rs:555-579 | If the larger counts have a price, so have the smaller, at no more. |
| Pricing.CachingNeverCostsMore | apps/codex-taskbar/src/lib.rs:561-564 | Of the same input, more cached never costs more. |
| Backoff.DelayFor | crates/adapters-codex-app-server/src/supervisor.rs:131-141 | The stepwise delay with its early break never exceeds the maximum and, for a maximum that saturation cannot fall short of, is exactly min(maximum, initial times multiplier to the attempt). |
| Backoff.DelayIsMonotone | crates/adapters-codex-app-server/src/supervisor.rs:131-141 | The delay never falls with more failures. |
| Backoff.ProductMeetsMaximum | crates/adapters-codex-app-server/src/supervisor.rs:197-203 | A saturated product and the exact one agree after the cut at the maximum. |
| Backoff.UnreachableFallsShort | crates/adapters-codex-app-server/src/supervisor.rs:197-203 | For every other maximum there is a delay that falls short: the condition is exact. |

## Left out

- Real threads, pipes, processes, clocks, files and the network: each is a step or a parameter. Which pending ids are overdue, every clock reading and every I/O failure is an input.
- Threads as running code: `Transport` writes each atomic step of a thread as a function from state to state, because the properties are about interleavings, not about one thread's loop.
- Memory ordering below atomic accesses: each atomic access, lock region and channel operation is one indivisible step.
- Deadlines of pending requests: any set of pending ids may expire at a timeout step, so nothing is proved about how soon.
- Liveness of replies, and dropping of what is left in the pending map when the last thread lets go of it.
- `decode_frame` and the difference between notifications and responses: the reader's step is told what it read.
- Rounding: the curve and quota percentages are over the reals, and NaN is left out.
- Numbers with a fraction in encoded values: the printer in `LineCodec` writes integers. `Json` reads both.
- SQLite itself: tables are maps of rows, the CHECK on hours is a type, and the signed 64-bit storage limit is left out. Rows are visited in any order; the result does not depend on it.
- The layout of day buckets: the five counters of a day and of an hour are one record here, five fields or arrays there.
- `today_counts` and the other getters of the ledger: they only project stored values.
- How a notification is read as an activity event, and the choice of thread for `account/usage/read`: what a notification says about a thread is an input.
- Parsing of credits, spend control, reset credits, thread usage and account identity into typed fields, and masking of e-mail addresses: details are kept as the JSON they are read from, with the conditions under which they are present.
- `Session.CodexSession.Refresh`: the two loops over the three requests are written as three calls, because no endpoint sees what the others do.
- The reconnect loop of the session: a new run starts from the initial session state; the monitor is what carries over.
- Windows drawing, tray, settings, updater, diagnostics, process discovery and display strings.
- UTF-8, JSON and time-stamp parsing of log lines: `Tailer` takes a text test and a line parser as parameters. The local date is taken once per poll, not once per line.
- Hash collisions of event fingerprints: two events are the same when all that is hashed is the same.
- TailerRuns.PollsAgreeWithScans: a count without a time stamp keeps the hour of the poll that read it first; the runs compared with a scan have one such hour, or a time stamp on every count.
- Finding files by date and modification time: what a search finds is an input of the poll.
- The 32-bit sum of minimum widths: it could overflow only beyond 65,537 items.
- Unicode whitespace and case: trimming and lower-casing are those of ASCII.
- Display strings for prices, and the popup tracker.
