# Verified model of the terminal UI

A Dafny model of the stateful parts of the terminal UI in `tui/`, with proofs of what they promise. `dafny verify
dfyconfig.toml` checks all of it. Each file is one module.

- `Transcript`, `TranscriptSession`, `TranscriptTheorems`, `TranscriptLag`: the transcript engine. `Transcript`
  defines what a list of blocks looks like, index by index and without any cache. `TranscriptSession` is the session's
  code: the prefix cache, the cards remembered per block and throttled while streaming, the line ranges, eviction, and
  every mutator with its own rule of invalidation. `renderBlocks` is proved to print the picture, and
  `TranscriptTheorems` says when that is the picture of the current blocks, what the ranges mean, and what eviction and
  discarding do over whole runs. `TranscriptText` says the printed text and the cached part a second time, from the
  top. `TranscriptRuns` tells whole runs of a session by their events: what each does to the blocks, what is printed, and
  which blocks are kept. `TranscriptLag` has the cases in which the printed text lags behind the blocks or the settings, each with its exact
  condition and, but for long arguments, a run from an empty session that ends in it.
- `TranscriptHistory`, `HistoryLaws`: loading a stored session, with results matched to calls while blocks are being
  evicted, and what is shown of its messages.
- `SessionLocks`, `SessionHandoff`, `SessionFleet`, `SessionLaws`: who owns a session file. First the functions of one
  process; then any number of processes, interleaved between single file operations; then one process, its core and the
  messages of a switch; then any number of processes with their cores. `SessionLaws` has the exact outcome of each
  function on locks.
- `Composer`, `ComposerBox`, `ComposerLaws`: wrapping, the painted input box, clicks into it, and offsets against lines
  and columns.
- `Drafts`: drafts put aside for blocking interactions, and the queue of intercom requests.
- `Turns`, `TurnLaws`: the flags of a turn, the queued message, goals, abort watchdogs and core restarts, as one
  transition system, and the law of each of its fields.
- `MathPrinter`, `Mermaid`, `LineWrap`, `ListWindow`: the LaTeX printer, the mermaid rewriting, greedy wrapping, and the
  window of a grouped list. `Text` and `Options` are shared.

Methods carry the loops and assignments of the program and are proved against functions; the lemmas are about those
functions. A property that does not hold of the code is stated with the exact condition under which it does, and with a
case in which it fails: see the rows of the table that say "exactly when".

Where code and comments disagree, the model follows the code:

- `tui/blocks.go` says that changes of content clear the remembered card; a click on a reasoning block
  (`tui/transcript_mouse.go:417`) and a change of model during a stream do not (`ClickThenRender`, `DeltaThenRender`). It
  also says that a finished card depends on content, width and theme alone; the card of a reply without a model shows the
  selected one (`SelectThenRender`), and a folded thought shows a key (`RebindThenRender`).
- `tui/settings.go` says that a claim keeps two processes from appending to one session; a process that gets no claim at
  its start appends to the latest session all the same (`OpenExact`).
- `tui/handlers.go:177-178` says that a late watchdog cannot clear a new turn; it can when the aborted work ended without
  an answer of the core (`TimeoutStopsLaterTurn`, `LateWatchdogStopsNextTurn`).
- `inputContent` is meant to show a cursor on a line break at the end of its row; text of the next line follows on the
  same row (`PaintedIsWanted`).
- The cached loop and the tail loop of `renderBlocks` treat a group without rows differently (`GapsOfHiddenRuns`).
- A queued message is meant to wait for the end of a turn; `/steer` (`tui/handlers.go:2646-2654`) queues one in an idle
  session too, and leaves the footer idle over a waiting message (`IdleSteerStrands`, `StrandedExact`).
- Queueing promises not to displace a queued message; a steer does (`OnlySteerReplacesQueued`).
- `writeScript` means to read a command as a unit; it reads it without its arguments (`CommandInScript`).

Rendering is a parameter: cards, rows, headings and frames are arbitrary functions of a block's content, the width, the
theme, the keys and, where a clock runs, the elapsed time; a reply that names no model is drawn as one that names the
selected model. Facts about rows ask only that a frame is not empty and loses no line, and `CachedClock` that a row shows
the clock it is given.
Time, process liveness, answers of the core and whether it takes a command are parameters too.

## Model

| member | source | states |
|---|---|---|
| `Transcript.FrontierFromCut` | tui/blocks.go:181-206 | Caching may be resumed from any earlier frontier: starting again where whole units end reaches the same frontier as starting at the top. |
| `Transcript.FrontierIsCut` | tui/blocks.go:181-206 | The frontier never splits a maximal run of tool blocks, never covers a pending top-level call, a live block or a trailing run, and everything below it may be cached. |
| `Transcript.FrontierShape` | tui/blocks.go:181-206 | The frontier depends on the kinds of the blocks and on which calls are pending, not on any text. |
| `Transcript.RunEnd` | tui/blocks.go:260-266 | The end found is that of the maximal run of tool blocks from the start. |
| `Transcript.DrawnCard` | tui/blocks.go:197-206 | One more card in the cache keeps text, line count and recorded ranges those of the picture drawn from scratch. |
| `Transcript.DrawnRun` | tui/blocks.go:184-196 | One more finished run in the cache keeps text, line count and recorded ranges those of the picture drawn from scratch. |
| `TranscriptText.PictureIsPage` | tui/blocks.go:173-361 | The printed text is, from the top: for each block its marked card and an empty line; for each run of calls and results one frame with a heading and a row for each that is not a running scout, nothing for a run without rows, or an empty line if that is cached; without the line breaks at the end. |
| `TranscriptText.CachedExactly` | tui/blocks.go:181-206 | A block is cached exactly when neither it nor a block above it is live, is a top-level call without a result or stands above one in its run, or belongs to a run that reaches the end of the list. |
| `TranscriptSession.Draw` | tui/blocks.go:900-928 | The card returned is the remembered one exactly when that serves again, else the card of the block as it is; it shows the whole text of a finished block and all but at most 63 bytes, and all up to a line break, of a live one; what is remembered stays usable. |
| `TranscriptSession.Session.RenderBlock` | tui/blocks.go:900-928 | The same in place, with the keys put into the card as they are now: only the block's remembered card changes. |
| `TranscriptSession.Session.RenderToolActivity` | tui/blocks.go:282-361 | The group of a run, and for every call of it the recorded range: its rows below the heading, or the empty range for a hidden call. |
| `TranscriptSession.Session.CacheCard` | tui/blocks.go:197-206 | One card enters the prefix cache, drawn from what the block holds at the call; all session invariants are kept and the block is otherwise only released. |
| `TranscriptSession.Session.CacheRun` | tui/blocks.go:184-196 | One finished run enters the prefix cache, each call drawn from what it holds at the call; all session invariants are kept. |
| `TranscriptSession.Session.FillCache` | tui/blocks.go:181-206 | The caching loop stops exactly at the frontier; every block it takes in is drawn from what it held before, and blocks change only by being released. |
| `TranscriptSession.Session.DrawTail` | tui/blocks.go:216-249 | The uncached blocks are drawn below the cached text; with it they make the picture, and all ranges are those of the picture. |
| `TranscriptSession.Session.RenderBlocks` | tui/blocks.go:173-251 | Prints the picture of the recorded shots: blocks cached before as drawn then, all others from what they held at the call, with the remembered card exactly where that serves; the cache ends at the frontier, every range is the one in the picture, and no content changes but by releasing. |
| `TranscriptSession.Session.InvalidateAll` | tui/blocks.go:139-148 | Empties cache and indices, sets every range to 0..-1, and leaves contents, identities and remembered cards alone. |
| `TranscriptSession.Session.Push` | tui/blocks.go:82-129 | The new list, its identities and the focus after a push, with eviction at 400 blocks; the previous live block forgets its card, the new one is live when it streams; cards in step stay so. |
| `TranscriptSession.Session.Trim` | tui/blocks.go:90-122 | The eviction step: every block that is kept is the one it was, in order, below the marker with the new count; and the focus. |
| `TranscriptSession.Session.Log` | tui/blocks.go:659-836 | Any complete block is pushed with its fields, and nothing is live afterwards. |
| `TranscriptSession.Session.LogTool` | tui/blocks.go:697-705 | A call is pushed with capped arguments and its clock started. |
| `TranscriptSession.Session.Stream` | tui/handlers.go:497-517 | A delta goes to the live block of its kind or opens one and names the selected model; the text grows by the piece up to the storage limit; cards stay in step unless the block named another model. |
| `TranscriptSession.Session.ToolResult` | tui/handlers.go:537-590 | A result goes to the newest call that waits for it, or becomes a block of its own. |
| `TranscriptSession.Session.FinalizeInFlight` | tui/blocks.go:1326-1346 | Every call without a result gets its duration and, if it has no output, the note; no other block changes. |
| `TranscriptSession.Session.DiscardPartialStreamOutput` | tui/blocks.go:604-653 | Removes exactly the maximal streaming tail, from either of the two searches. |
| `TranscriptSession.Session.ResolveLatestApproval` | tui/blocks.go:841-866 | The newest pending approval, and only that, takes the decision. |
| `TranscriptSession.Session.EndStream` | tui/handlers.go:592-636 | The end of a turn takes the live mark away and keeps every invariant. |
| `TranscriptSession.Session.ToggleReasoning` | tui/handlers.go:2105-2122 | All reasoning blocks fold or unfold and forget their cards. |
| `TranscriptSession.Session.ClickReasoning` | tui/transcript_mouse.go:412-425 | One reasoning block folds or unfolds and keeps its remembered card, also where that card no longer fits. |
| `TranscriptSession.Session.ToggleOutput` | tui/transcript_mouse.go:456-466 | One call shows or hides its output and takes the focus; cards stay in step. |
| `TranscriptSession.Session.SelectModel` | tui/handlers.go:1551-1571 | Another model is selected and nothing is drawn afresh; cards stay in step if every reply names its model. |
| `TranscriptSession.Session.Rebind` | tui/keybinds.go:407-460 | An action gets another key and nothing is drawn afresh. |
| `TranscriptSession.Session.Clear` | tui/handlers.go:662-678 | An empty transcript with an empty cache. |
| `TranscriptTheorems.GapsOfHiddenRuns` | tui/blocks.go:196-238 | Grouping with a cache differs from grouping the whole list at once by two line breaks for every run in the cache of which no call is shown, and by nothing else. |
| `TranscriptTheorems.IncrementalGroupingIsGrouping` | tui/blocks.go:196-238 | The two texts are equal exactly when the cache holds no such run. |
| `TranscriptTheorems.CachedHiddenRun` | tui/blocks.go:181-206 | Such a run can be in the cache only if every call of it is a nested scout that is still at work. |
| `TranscriptTheorems.HiddenRunReachesCache` | tui/blocks.go:181-206 | A nested scout at work above any other block is such a run: the frontier passes it and the gap is there. |
| `TranscriptTheorems.CardRows` | tui/blocks.go:195-249 | A card's recorded range is its rows in the text before final line breaks are trimmed. |
| `TranscriptTheorems.CardInOutput` | tui/blocks.go:195-249 | In the printed text, with the ranges the blocks hold: a card is below exactly its top line breaks and ends on its bottom line; only line breaks at the very end of the text can be missing from it. |
| `TranscriptTheorems.CallRows` | tui/blocks.go:340-359 | The range of a shown call lies inside the rows of its group, below the first. |
| `TranscriptTheorems.CallInOutput` | tui/blocks.go:340-359 | The same in the printed text, with the ranges the blocks hold. |
| `TranscriptTheorems.RangesIncrease` | tui/blocks.go:195-249 | The ranges of shown blocks are disjoint and in list order. |
| `TranscriptTheorems.RecordedIncrease` | tui/blocks.go:195-249 | The same of the ranges the blocks hold. |
| `TranscriptTheorems.PictureIsCurrent` | tui/blocks.go:173-251 | With remembered cards and cache in step the printed text is that of the current list drawn from scratch under the current settings, if the blocks that were in the cache before the call are what they were when they entered it; of all others nothing is asked. |
| `TranscriptTheorems.HistoryDoesNotMatter` | tui/blocks.go:173-251 | Under the same condition two sessions with the same contents print the same, whatever was cached, remembered or drawn before in either; a live block, in one or in both, must end in a line break. |
| `TranscriptTheorems.RenderSettled` | tui/blocks.go:173-251 | renderBlocks with cards and cache in step prints the current list drawn from scratch under the current settings, if the blocks already in the cache have short arguments and no running clock; a live block shows all but at most 63 bytes, and all up to a line break. |
| `TranscriptLag.ClickThenRender` | tui/transcript_mouse.go:412-425 | From cards in step: after a click on a finished reasoning block the next drawing prints it folded as before exactly when its card is remembered for this width and theme, or folding makes no difference. |
| `TranscriptLag.DrawnIsRemembered` | tui/blocks.go:914-927 | A finished reasoning block, reply or question that has been drawn is remembered, unless its card is empty. |
| `TranscriptLag.FoldStaysOpen` | tui/transcript_mouse.go:412-425 | A run from an empty session: the thought is folded, and printed unfolded. |
| `TranscriptLag.DeltaThenRender` | tui/handlers.go:497-507 | From cards in step: a delta names the selected model, and the next drawing prints the old text as it was, under the old model, exactly when no line break ends it, fewer than 64 bytes are new, and width and theme are the same; else all of it under the new one. |
| `TranscriptLag.OldModelStays` | tui/handlers.go:497-507 | A run from an empty session: the block names the new model, and is printed under the old one. |
| `TranscriptLag.SelectThenRender` | tui/blocks.go:974-977 | From cards in step: after another model is selected the next drawing prints a block under the old one exactly when it is a reply that names no model and is in the cache or has its remembered card used again; the print is right exactly when it is no such reply or the two cards are equal. |
| `TranscriptLag.LoadedReplyStays` | tui/blocks.go:1631-1637 | A run from an empty session: a stored reply, loaded while no model is selected, is printed without one after one is selected. |
| `TranscriptLag.RebindThenRender` | tui/blocks.go:952-960 | From cards in step: after a change of keys what is in the cache is printed with the old keys, a remembered card that serves again with the old ones inside and the new ones put into it, and all else with the new ones. |
| `TranscriptLag.OldKeysStay` | tui/keybinds.go:407-427 | A run from an empty session: after a change of keys the reply is printed with the old ones. |
| `TranscriptLag.RenderTwice` | tui/blocks.go:181-206 | Drawn twice, a call that enters the cache the first time is printed the second time with the clock of the first, and every call outside it with its own. |
| `TranscriptLag.CachedClock` | tui/tool_blocks.go:133-139 | The row of a call printed with an earlier clock is its present row exactly when no clock runs in it, or the clock has not moved. |
| `TranscriptLag.ClockStops` | tui/blocks.go:1284-1286 | A run from an empty session: the clock of a nested call that is at work stands still in the printed text. |
| `TranscriptLag.RenderRefreshed` | tui/blocks.go:795-824 | Drawn again from scratch, a call that had entered the cache is printed from what was left of it, where the first drawing had it whole. |
| `TranscriptLag.ReleaseIsHarmless` | tui/blocks.go:795-824 | That is no difference exactly when its arguments and diff are short or capped already; releasing twice is releasing once. |
| `TranscriptTheorems.PushKeepsCount` | tui/blocks.go:82-129 | One push keeps the list at 400 at most, the marker at the top only, the total count, and the newest blocks in order. |
| `TranscriptTheorems.PushedAllIs` | tui/blocks.go:82-129 | After any run of pushes the list is everything, or the 399 newest below a marker that counts all others. |
| `TranscriptTheorems.FocusNamesItsBlock` | tui/blocks.go:82-129 | By identity, over any run of pushes as Push does them: the focus names its block as long as that is kept and nothing once it is gone, but for the moment when the marker has taken its place. |
| `TranscriptTheorems.DiscardTakesTheTail` | tui/blocks.go:604-653 | What is discarded is the maximal streaming tail, and a second discard finds nothing. |
| `TranscriptRuns.Tell` | tui/blocks.go:76-835 | What each event of a session does to the list of blocks, field by field: which block is added, changed, settled, decided, folded or dropped, with every limit and default. |
| `TranscriptRuns.Paint` | tui/blocks.go:160-251 | A drawing prints the splash exactly when no block is a user's message, a reply, a thought, a call, a result or an approval, and otherwise every block of the list, each as it is but for what may lag; it shortens arguments and diffs of exactly the cached calls and approvals. |
| `TranscriptRuns.Play` | tui/blocks.go:82-251 | The same over any run of events from an empty session. |
| `TranscriptRuns.KeptAreNewest` | tui/blocks.go:82-129 | In every run the list holds the newest of the blocks that were pushed and not discarded: all of them, or the newest 399 below a marker that counts the others. |
| `TranscriptRuns.ListIsPrintedIff` | tui/blocks.go:160-179 | In every run a drawing prints the list exactly when one of the kept blocks was pushed as a user's message, a reply, a thought, a call, a result or an approval; it prints the splash otherwise. |
| `TranscriptRuns.TalkStays` | tui/blocks.go:160-171 | After a user's message, an approval, a call or a piece of a stream the list is printed for the next 399 events, unless the transcript is cleared or the stream discarded. |
| `TranscriptRuns.ResultIsTalk` | tui/blocks.go:160-171 | After a result the list is printed. |
| `TranscriptRuns.NotesLeaveSplash` | tui/blocks.go:160-171 | After notes, warnings, errors and raw lines alone the splash is printed. |
| `TranscriptHistory.RebuildBlocksFromHistory` | tui/blocks.go:1596-1684 | Loading with eviction and pending calls leaves the newest blocks of the transcript that the same messages make without any limit, nothing live and no cache. |
| `TranscriptHistory.NewestUpdate` | tui/blocks.go:1669-1675 | Filling in an output commutes with eviction: into the block's new place if it is kept, without trace if it is not. |
| `TranscriptHistory.HistoryIsComplete` | tui/blocks.go:1601-1683 | Every stored block and output is shown in order: a call with the first result for its id before the id is used again, a result that no call waits for as a block of its own. |
| `TranscriptHistory.PendingIsWaiting` | tui/blocks.go:1601-1675 | The pending table holds, for every id, the latest call without a result. |
| `HistoryLaws.EntriesAreMessages` | tui/blocks.go:1604-1682 | Each message makes, in order, exactly what there is to see of it: a question, a thought, a reply with its model, named calls with name, arguments, nesting and id, and an output, each text cut at its limit. |
| `HistoryLaws.MessagesAreShown` | tui/blocks.go:1604-1682 | Without the limit on blocks a loaded transcript shows, in order, all questions, thoughts, replies and named calls of the messages, and nothing else but outputs. |
| `HistoryLaws.OutputsAreShown` | tui/blocks.go:1663-1682 | Every stored output is on a call with its id or is a block of its own. |
| `SessionLocks.Tui.ReserveSession` | tui/settings.go:30-56 | What a reservation leaves on disk and in the variables, with the takeover of a stale lock. |
| `SessionLocks.Tui.CommitSessionClaim` | tui/settings.go:71-84 | The reservation becomes the claim and the lock of the old claim goes. |
| `SessionLocks.Tui.CancelSessionReservation` | tui/settings.go:86-94 | Only the reservation that is named, or any when none is named, goes with its lock. |
| `SessionLocks.Tui.ClaimSession` | tui/settings.go:19-24 | Reserve and commit in one, or nothing but the failed attempt. |
| `SessionLocks.Tui.ReleaseSessionClaim` | tui/settings.go:120-126 | Both locks go and nothing is held. |
| `SessionLocks.Tui.SessionLockedByAnotherProcess` | tui/settings.go:96-107 | Own sessions are not foreign; a stale lock is removed and does not count. |
| `SessionLocks.StepKeepsOwned` | tui/settings.go:19-126 | Every single file operation of any process keeps: live processes hold exactly the sessions whose locks name them. A removal is taken to hit no live lock. |
| `SessionLocks.RunKeepsOwned` | tui/settings.go:19-126 | The same over whole runs, for any number of processes and any interleaving of file operations. |
| `SessionLocks.HeldByOne` | tui/settings.go:19-126 | Under that invariant no session is held by two live processes. |
| `SessionLocks.RemovalExact` | tui/settings.go:41-45 | A removal keeps the invariant exactly when it does not hit the lock of a live process. |
| `SessionLocks.ReserveAsOneStep` | tui/settings.go:30-56 | Uninterrupted, the four file operations of a reservation do what the one step does, and the removal is harmless. |
| `SessionLocks.MovesKeepOwned` | tui/settings.go:19-126 | With the takeover as one step ownership and single holders are kept over all runs, without any condition. |
| `SessionLocks.HarmfulRemovalGivesTwoOwners` | tui/settings.go:41-54 | After a harmful removal the remover gets the session while its owner holds it. |
| `SessionLocks.StaleTakeoverRace` | tui/settings.go:41-54 | A run of two processes over one stale lock that reaches a harmful removal. |
| `SessionLaws.ReserveExact` | tui/settings.go:30-69 | A reservation succeeds exactly for an own session and for one without a lock, with the lock of a process that is gone, or with an unreadable lock that is a day old; it names the process on the session, drops the lock of an earlier reservation, and touches no other lock; a refused one changes nothing. |
| `SessionLaws.CommitExact` | tui/settings.go:71-84 | A claim succeeds exactly for the claimed and the reserved session, and takes away the lock of the earlier claim and no other. |
| `SessionLaws.CancelExact` | tui/settings.go:86-94 | A cancellation drops the reservation with its lock exactly when it names it or names none. |
| `SessionLaws.ReleaseExact` | tui/settings.go:120-126 | At the end both locks are gone and all others are as they were. |
| `SessionLaws.LookAsOneStep` | tui/settings.go:96-107 | A look at a session, one file operation after the other, removes its lock exactly when that keeps nobody away, and changes nothing else. |
| `SessionHandoff.HeldIsWhatLocksLeave` | tui/settings.go:30-94 | The view of one process used for switches is what the functions on lock files leave. |
| `SessionHandoff.StepKeepsGood` | tui/handlers.go:1048-1066 | Every step of a switch keeps the written file locked; the claim moves only when the core reports the change, and a failed switch leaves it. |
| `SessionHandoff.WritingStaysLocked` | tui/modal.go:2459-2467 | Over whole runs with one switch at a time the file the core writes is locked by this process. |
| `SessionHandoff.SecondSwitchCanUnlock` | tui/handlers.go:2982-2994 | A second switch that is accepted can end with the core writing an unlocked file exactly when the switch on its way is to another file than the claimed one and either has no answer yet, or has changed and the second is to yet another file, or has failed and the second is to the same file. |
| `SessionHandoff.SteadyStaysLocked` | tui/handlers.go:1048-1066 | While every answer still to come leaves the file then written locked, it stays so in every run without another switch. |
| `SessionLaws.SwitchGoesThrough` | tui/handlers.go:1048-1066 | A switch that is accepted and carried out ends with the core writing the session and the process holding it and nothing else; one that fails or is refused ends as it began, but for an earlier reservation. |
| `SessionLaws.RestartSettles` | tui/main.go:1055-1092 | A restart of the core goes back to the claimed session and leaves nothing on its way. |
| `SessionFleet.LockingHeld` | tui/settings.go:30-94 | What an act of one process does to the lock files keeps ownership, leaves every other process alone, and leaves held what the process believes it holds. |
| `SessionFleet.DeedKeepsSound` | tui/settings.go:19-126 | Starting, claiming, listing, switching, quitting and crashing of any process keep: locks, variables and cores of all processes agree. |
| `SessionFleet.WrittenByOne` | tui/settings.go:19-126 | Then no two cores write one file, and no process holds a file that the core of another writes. |
| `SessionFleet.FilesHaveOneWriter` | tui/settings.go:17-126 | Over whole runs of any number of processes and cores, however they interleave: no two cores write one session file, if each process asks for one switch at a time and gets a session to begin with. |
| `SessionFleet.OpenExact` | tui/settings.go:109-118 | The start of a process keeps that exactly when one of the two sessions it tries is free; otherwise its core writes the latest one without the lock. |
| `SessionFleet.EmptyIsSound` | tui/settings.go:19-126 | Before any process has started everything agrees, whatever lock files lie about. |
| `Composer.WrapRunes` | tui/render.go:1235-1254 | The hard-wrapped rows of one line. |
| `Composer.WrapRunesMultiline` | tui/render.go:1214-1233 | The rows of a text, line by line. |
| `Composer.RowsFit` | tui/render.go:1214-1254 | Every row fits the width and is the piece of the text at its start. |
| `Composer.WrappedRuneOffset` | tui/chrome_mouse.go:1366-1399 | The offset computed without rows is where the row of the row list starts, or the text length when there is no such row. |
| `ComposerBox.InputContent` | tui/render.go:1066-1186 | The painted rows, the place of the cursor cell, and the capped window around it. |
| `ComposerBox.PaintedOnCharacter` | tui/render.go:1066-1186 | With the cursor on a character the painted rows are the rows of the text and the cell is at the cursor's offset. |
| `ComposerBox.PaintedIsWanted` | tui/render.go:1096-1133 | The painted rows are the wanted ones exactly where stated: everywhere but on a line break, and there only at the end of the text or in the last column before a line with text. |
| `ComposerBox.PaintedFits` | tui/render.go:1066-1165 | Every painted row fits the width. |
| `ComposerLaws.RowsJoin` | tui/render.go:1214-1254 | The rows of a text, joined, are the text without its line breaks. |
| `ComposerLaws.NothingLost` | tui/render.go:1066-1165 | For every text, cursor and width the painted rows, joined, are the text without its line breaks, with a blank at the cursor when that is on a line break or at the end. |
| `ComposerLaws.CursorRowOnBreak` | tui/render.go:1096-1140 | With the cursor on a line break its row holds what is before it in its row, a blank cell, and of the next line as much as there is room for; what is left of that line, or the line after it, begins the next row. |
| `ComposerLaws.WindowIsCentred` | tui/render.go:1160-1186 | All of up to five rows are shown; of more, five, with two above the cursor and two below it unless an end is nearer. |
| `ComposerLaws.ClickLands` | tui/chrome_mouse.go:1290-1345 | With the cursor on a character a click means the row of text that is painted where it lands, nothing on the mark above, and the end of the text on the mark below. |
| `ComposerLaws.ClickBelow` | tui/chrome_mouse.go:1310-1316 | A click below all rows means the end of the text on the hint line and nothing elsewhere. |
| `ComposerLaws.LinesJoin` | tui/composer.go:54-95 | The lines of a text hold no line break and joined with line breaks are the text. |
| `ComposerBox.WindowHoldsCursor` | tui/render.go:1160-1186 | The capped window holds the cursor row, has five rows if there are five, and is centred unless it touches an end. |
| `ComposerBox.ClickOutOfRange` | tui/chrome_mouse.go:1310-1345 | A click indexes past the rows exactly on the fresh row of a cursor behind a full last row of a short text. |
| `ComposerBox.TextArea.InputPosition` | tui/composer.go:54-72 | The offset of a line and column. |
| `ComposerBox.TextArea.SetInputCursor` | tui/composer.go:75-95 | The cursor ends at the clamped offset. |
| `ComposerBox.PlaceOfOffset` | tui/composer.go:75-95 | The lines before an offset end on its line, at its column. |
| `ComposerBox.PlaceIsUnique` | tui/composer.go:54-95 | Line and column can be read back from the offset. |
| `Drafts.Composer.SuspendComposer` | tui/input_owner.go:6-23 | An owner without a draft puts the composer aside and gets an empty one; an owner with one changes nothing. |
| `Drafts.Composer.RestoreComposer` | tui/input_owner.go:25-48 | The newest draft of the owner goes, and comes back into the composer only from the top. |
| `Drafts.Composer.RestoreAllComposerDrafts` | tui/input_owner.go:50-61 | The oldest draft comes back and the others go. |
| `Drafts.Composer.EnqueueIntercom` | tui/input_owner.go:63-82 | A request becomes pending or waits; one that is there already changes nothing. |
| `Drafts.Composer.AdvanceIntercom` | tui/input_owner.go:84-94 | The text is emptied; the request that waited longest becomes pending, and when none waits the intercom gives the composer back. |
| `Drafts.ActsKeepDrafts` | tui/input_owner.go:6-48 | Interactions nested in any way leave the stack of drafts as they found it. |
| `Drafts.ActKeepsDrafts` | tui/input_owner.go:6-48 | An interaction gives back text, cursor and attachments exactly, whatever was typed and nested inside. |
| `Drafts.RestoreKeepsUserDraft` | tui/input_owner.go:36-42 | Released in any order, the user's draft is lost exactly when its own interaction ends while another still holds the composer. |
| `Drafts.OthersKeepUserDraft` | tui/input_owner.go:6-94 | Suspending, queueing, giving all back and the end of a turn keep the user's draft. |
| `Drafts.SecondSuspendLosesDraft` | tui/input_owner.go:10-14 | An owner that suspends twice gets its first draft back. |
| `Drafts.TurnEndStrandsDraft` | tui/handlers.go:166-175 | The end of a turn drops a request and leaves its draft behind; the next request then gives back the old draft. |
| `Drafts.LogStepIsFair` | tui/input_owner.go:63-94 | Each arrival, answer or end of a turn keeps requests in order, without duplicates, shows one whenever one waits, and drops only what waits. |
| `Drafts.IntercomIsFair` | tui/handlers.go:166-175 | The same over whole runs of many turns: in each turn what was shown and what waits, or was dropped at its end, is what was accepted, in order. |
| `Drafts.TakenComposerIsEmpty` | tui/input_owner.go:6-23 | An owner finds the composer empty exactly when it has no draft yet, or it was empty; what was in it is then the newest draft. |
| `Drafts.ReleaseTakesNewest` | tui/input_owner.go:25-48 | A release takes the owner's newest draft off the stack and brings it back exactly when none is above it, or the composer holds the same. |
| `Drafts.ArrivalIs` | tui/input_owner.go:63-82 | A request is accepted exactly when it has an id and is neither shown nor waiting; it is shown at once exactly when none is, in an empty composer unless an intercom draft was left behind, and waits behind all others otherwise. |
| `Drafts.AnswerIs` | tui/input_owner.go:84-94 | An answer empties the text and keeps the images for the request that waited longest; after the last one the draft comes back if it is the newest. |
| `Turns.Session.HandleDone` | tui/handlers.go:592-636 | After the end of a turn the session works on exactly when a message is queued or a goal is at work, and there is one turn less to wait for unless a goal alone goes on. |
| `Turns.Session.HandleAborted` | tui/handlers.go:639-660 | After an abort the session works on exactly when a message is queued, and there is one turn less to wait for. |
| `Turns.Session.ApplyGoalState` | tui/handlers.go:56-110 | What a goal snapshot does to goal and footer. |
| `Turns.Session.Update` | tui/main.go:865-1100 | Every input leaves the state the transition system says, and the invariants of all runs. |
| `Turns.EventFacts` | tui/handlers.go:56-1378 | Any event of the core, whatever the state: it disarms the watchdog exactly as an answer, never starts a core, never queues or replaces a message, adds work only as a snapshot of a goal at work, and lets go of the footer without an answer exactly in the quiet ways. |
| `Turns.KeyFacts` | tui/handlers.go:1878-2310 | Any key: which ones abort, which one restarts a core, that none but a retry lets go of the footer, and that each adds one turn at most. |
| `Turns.EOFFacts` | tui/main.go:1055-1092 | The end of a core: one restart per budget, or on purpose; nothing is queued by it and nothing happens twice. |
| `Turns.WorkStep` | tui/main.go:865-1100 | One input adds at most one turn, and only if it asks for one; an end takes one away if there is one. |
| `Turns.RunKeepsValid` | tui/main.go:865-1100 | In every run a queued message and its flag go together, at most one restart is spent, and the core's life agrees with the start-up flag. |
| `Turns.TimeoutIsTheLatest` | tui/main.go:1023-1038 | However late it fires, an abort watchdog acts exactly when the session works and nothing armed another or disarmed it since. |
| `Turns.TimeoutStopsLaterTurn` | tui/handlers.go:177-191 | A watchdog that acts stops another turn than the aborted one exactly when the aborted work ended by one of the ways that leave it armed. |
| `Turns.EndsAre` | tui/handlers.go:1370-1378 | Those ways are: a settled or cleared goal, an error before the turn showed anything, and a core that does not start. |
| `Turns.LateWatchdogStopsNextTurn` | tui/main.go:1023-1038 | A run in which the old watchdog stops the next turn. |
| `Turns.OldCoreIsSilent` | tui/main.go:1055-1097 | After a newer start nothing from an earlier core changes anything: events, end, failed start, start-up watchdog. |
| `Turns.OneRestartPerTurn` | tui/main.go:1079-1091 | While no turn is completed at most one crash is answered by a restart. |
| `Turns.TurnsBalance` | tui/handlers.go:592-660 | In every run the turns still waited for and those that were ended are together covered by the turns asked for. |
| `Turns.TwoEndsRelease` | tui/handlers.go:646-652 | Unless more is asked for, two ends from the core release the session, whatever was queued and whatever comes between. |
| `Turns.DoneReleasesIff` | tui/handlers.go:605-623 | The end of a turn releases the footer exactly when nothing is queued and no goal is at work. |
| `Turns.OnlySteerReplacesQueued` | tui/handlers.go:1878-1962 | A queued message is displaced by a steer only, never by a follow-up. |
| `TurnLaws.StepIs` | tui/main.go:865-1100 | Every input changes every field of the state by a law that names the inputs and states in question: what begins a turn, what lets go of it, what is queued, taken up, taken back and lost, what arms and disarms a watchdog, what starts a core. |
| `TurnLaws.WorksAfter` | tui/handlers.go:592-660 | The session works after an input exactly when that begins a turn, or it worked and the input does not stop it; an idle session that begins a turn becomes busy. |
| `TurnLaws.WaitsAfter` | tui/handlers.go:1878-1962 | After an accepted steer, and after a follow-up accepted while nothing waits, exactly that message waits; otherwise what waited waits on until it is taken up, taken back or lost. |
| `TurnLaws.NothingVanishes` | tui/handlers.go:592-660 | In every run each accepted message was taken up, taken back, displaced or lost, or it waits; and the session began to work as often as it stopped, or once more. |
| `TurnLaws.WorkIsBalanced` | tui/handlers.go:592-660 | In every run the work still expected is exactly the work begun and accepted less what ended, was taken up, taken back, displaced or lost. |
| `TurnLaws.StrandedExact` | tui/handlers.go:2646-2654 | The footer goes idle over a waiting message exactly by a steer command while nothing runs, by work that ends with its goal, or by a core that does not come up. |
| `TurnLaws.FooterStaysBusy` | tui/handlers.go:592-660 | In every run without these the footer shows work as long as a message waits. |
| `TurnLaws.IdleSteerStrands` | tui/handlers.go:2646-2654 | A steer command to an idle session is such a case. |
| `MathPrinter.PrettyMath` | tui/markdown_polish.go:159-180 | The printed fragment; the loop and the calls below it terminate on every input, with every index in range. |
| `MathPrinter.MathCommand` | tui/markdown_polish.go:183-267 | What a command writes and how far it reads. |
| `MathPrinter.WriteScript` | tui/markdown_polish.go:271-297 | What a script writes and how far it reads. |
| `MathPrinter.ReadGroup` | tui/markdown_polish.go:301-321 | The text of a group or a single character, and where reading goes on. |
| `MathPrinter.ScriptedIs` | tui/markdown_polish_tables.go:74-96 | A script has the length of its text, and each character is the one of the table, or the same where the table has none. |
| `MathPrinter.WordIs` | tui/markdown_polish.go:207-267 | A name prints its Greek letter, else its operator; else nothing for delimiter sizes, two or four blanks for spaces, and itself for an unknown name. |
| `MathPrinter.GroupComesBack` | tui/markdown_polish.go:301-321 | A group comes back as written exactly when its text opens and closes its own groups. |
| `MathPrinter.OpenGroupTakesAll` | tui/markdown_polish.go:301-321 | A group that is never closed is the rest of the text, and reading ends one past it. |
| `MathPrinter.FormulaPrints` | tui/markdown_polish.go:159-321 | Every formula of characters, names, control symbols, fractions, roots with and without an index, scripts, groups and text, with arguments in braces or of one character, nested in any way and followed by anything that does not go on a name, is printed as its meaning. |
| `MathPrinter.ItemPrints` | tui/markdown_polish.go:159-321 | The same for one item. |
| `MathPrinter.PlainTextPrints` | tui/markdown_polish.go:159-180 | Text without commands and scripts is printed as it is, less its braces. |
| `MathPrinter.CommandInScript` | tui/markdown_polish.go:271-297 | A command right after a script mark, for every name: only its name is raised or lowered, and that is the whole command exactly when it takes no argument, or nothing follows. |
| `MathPrinter.BareFractionInScript` | tui/markdown_polish.go:271-297 | So a fraction right after a script mark loses its braces and is torn apart; in a group it is not. |
| `MathPrinter.CutShort` | tui/markdown_polish.go:159-321 | A command without its arguments prints its stroke, its root sign or nothing; a lone backslash and a lone mark print nothing. |
| `Mermaid.IsMermaidFence` | tui/markdown_polish.go:46-59 | Which trimmed lines open a mermaid fence. |
| `Mermaid.TransformMermaidBlocks` | tui/markdown_polish.go:63-89 | The transformed lines. |
| `Mermaid.NoMermaidLeft` | tui/markdown_polish.go:63-89 | No line of the result opens a mermaid fence. |
| `Mermaid.OthersUntouched` | tui/markdown_polish.go:63-89 | A text stays as it is exactly when no line opens a mermaid fence. |
| `Mermaid.TransformedOnce` | tui/markdown_polish.go:63-89 | Transforming twice is transforming once. |
| `Mermaid.FenceExact` | tui/markdown_polish.go:46-59 | A line opens a mermaid fence exactly when, without the white space around it, it is three ticks and, behind white space, the word in any case, alone or before a blank or tab. |
| `Mermaid.DiagramIsFramed` | tui/markdown_polish.go:63-89 | The first diagram, closed or not, comes out with all its lines in a plain fence, below an empty line and a caption with their number; the lines above are as they were, and the fence that closes it goes. |
| `LineWrap.WrapLine` | tui/styles.go:184-230 | The texts of the rows of one line; an empty line is one empty row. |
| `LineWrap.WrapPlain` | tui/styles.go:173-182 | The rows of all lines; a width below one counts as one. |
| `LineWrap.FillIs` | tui/styles.go:200-217 | A row takes a cluster at least, and more as long as they fit. |
| `LineWrap.WrapKeepsLine` | tui/styles.go:184-230 | Every row fits or is one cluster, none is empty, and with the dropped blanks put back the rows are the line. |
| `LineWrap.SoftBreakIsGreedy` | tui/styles.go:218-224 | A soft break gives up a word that fits exactly when that word ends where filling stopped. |
| `LineWrap.FullRowBreaksEarly` | tui/styles.go:218-224 | A word that fills its row to the last column goes to the next one. |
| `LineWrap.RowsAreThese` | tui/styles.go:184-230 | Each row is what a row can take, or, when the line goes on, up to the last blank in that below the first cluster; only then a blank is dropped. |
| `LineWrap.PrintedTexts` | tui/styles.go:173-198 | The lines come one after the other, an empty one as an empty row, and each row is the text of its clusters. |
| `LineWrap.TextMore` | tui/styles.go:184-230 | The text of clusters is theirs, one after the other. |
| `ListWindow.Modal.Place` | tui/modal.go:4068-4101 | Cursor and scroll are brought into range, and the window down to the cursor, no further than it takes. |
| `ListWindow.Modal.FindWindowEnd` | tui/modal.go:4080-4098 | Where a window ends, with a line for each heading. |
| `ListWindow.Modal.Draw` | tui/modal.go:4134-4142 | The rows and headings of the window. |
| `ListWindow.Modal.Render` | tui/modal.go:4061-4142 | The list fits its budget of lines, its items are those of one window, once each and in order under their headings, the item under the cursor is among them, and the window is full. |
| `ListWindow.WindowShows` | tui/modal.go:4080-4098 | A window shows its first item, and any other exactly when all items up to it fit the budget. |
| `ListWindow.WindowIsFull` | tui/modal.go:4080-4098 | An item is in the window exactly when it is the first or the items down to it and a line for each heading above them fit the budget. |
| `ListWindow.DrawnHeaded` | tui/modal.go:4134-4142 | A heading stands directly above an item of its group and is not the one before it again; every item of a group is below the heading of that group, but for the first item when there is no room. |
| `ListWindow.VisibleFrom` | tui/modal.go:4099-4101 | Once a window shows the cursor every later one does, so the scroll found is the only one that scrolls least. |
| `ListWindow.DrawnItems` | tui/modal.go:4134-4142 | The items of the window are drawn once each and in order. |
| `ListWindow.DrawnFits` | tui/modal.go:4061-4142 | Rows and headings together never exceed the line budget. |

## Left out

- `StepKeepsOwned`: asks that the file a removal deletes is not the lock of a live process; `RemovalExact` shows that this cannot be weakened, and `MovesKeepOwned` needs no such condition because the takeover is one step there.
- `WritingStaysLocked`: asks for one switch at a time, which the program does not enforce for `/new`; `SecondSwitchCanUnlock` says exactly which second switches are harmless.
- `RenderSettled`: asks for remembered cards and cache in step, which a click on a reasoning block, a delta under another model, the choice of another model and a change of keys can undo, and of the blocks already in the cache for short arguments and no running clock; it is not true otherwise, and `TranscriptLag` has the exact condition of each exception.
- Processes do not reuse process ids, and creating a lock and writing the process id into it are one step, as are removing an own lock and the assignments beside it.
- `FilesHaveOneWriter`: takes a takeover as one step and asks for one switch at a time and a session to begin with; `RemovalExact`, `SecondSwitchCanUnlock` and `OpenExact` are exact about each. A core is taken to end with its process.
- `TextArea`: the cursor motion of the text area library is taken to go down one line of text, not one displayed row, and its limit of lines is not modelled.
- `FormulaPrints`: formulas with an escaped brace, with a special character as an argument of one character, with a missing argument or with a group that is not closed are not covered; `GroupComesBack` and `OpenGroupTakesAll` say what becomes of such groups, `CutShort` of a command at the end, `CommandInScript` of a command after a script mark.
- `ClickRow`: only the row arithmetic of a click; the hit test against the painted card rests on rendered strings.
- `Mermaid.Opens`: case folding is that of ASCII letters, which is all that the letters of the word need.
- Blocks are records with an identity instead of heap objects, so aliasing of one block from two places is modelled by looking the identity up.
- Texts of blocks are sequences of bytes, but for the ellipsis in the mark of a cut text, which counts as one; a limit may cut a multi-byte character, as in the program.
- The markdown cache: a card is the same text whether it comes from that cache or not.
- Refreshing and scrolling the viewport, the welcome and failure screens (a parameter), toasts, and the `bash_execution` blocks.
- The heading of a group that is clicked as a whole: it is a loop of the single toggle.
- In the turn machine: dialogues and prompts that take a key first, the checks of login and model (part of `accepted`), what is sent to the core, and messages that change none of its fields.
- In loaded histories: JSON, blank texts and thinking tags, which are decoded before the model begins.
- The core itself: in a switch it answers commands in order, and writes to the new file from the moment it reports the change.
- The regular expressions that find formulas and protect code, and the colour swatches.
- Grapheme clusters and their widths: the wrapped line is given as clusters.
- Login, providers, plugins, settings, slash commands without effect on the above, footers, metrics, themes and animations.
