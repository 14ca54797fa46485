# Models of the session toolkit's hard cores

This project states, as Dafny models, what the trickiest parts of the repository do, and proves what they
are for. Each model follows the code's own branches, constants and error paths; where the code and its
comments disagree, the code is followed.

- **The codex-ask lane protocol** (`LaneVerdict`, `LaneProtocol`, `LaneInvariant`, `LaneHistory`,
  `LaneTheorems`, `LaneStability`, `LaneFaults`, `LaneOutcome`, `LaneProgress`, `Watch`, `WatchLane`): any number of dispatchers, workers, codex
  runs, awaiters, watchers and pruners share one lane directory and one lock, and take single file operations in
  any order. Workers and unlucky lock holders may be killed at any step. A generation number stands for the file
  names that one dispatch mints.
- **The text codecs** (`Codecs`): shell quoting, JSON escaping, line splitting and the log tail, each against
  the reader that undoes it.
- **The comment fold and anchor search** (`CommentOrder`, `CommentForest`, `CommentFold`, `CommentTheorems`,
  `CommentMeaning`, `CommentAnchor`, `Whitespace`): records become a pruned forest; a quote is found again in a page's text nodes.
- **The what-if language** (`WhatIfTokens`, `WhatIfGrammar`, `WhatIfParser`, `WhatIfLanguage`, `WhatIfPrint`,
  `WhatIfMinimal`): scanner, parser with a cursor, the grammar it implements, and a printer as its inverse.
- **The diagram layouts** (`Drawing`, `FlowLayout`, `LanesLayout`): exact coordinates for any number of boxes.
- **The Orca reclaimer** (`ReclaimTrace`, `ReclaimThorough`, `ReclaimWorld`, `Reclaim`, `ReclaimGc`, `ReclaimTheorems`): a pass
  over an Orca Run against a world that answers every call as it likes. Each operation of the world demands, as
  its precondition, that the calls made so far justify it.
- **The rate limiter, the stream reader and the inbox clock** (`RateLimit`, `Stream`, `StreamMeaning`, `Inbox`).

`Options` holds the shared value types and `Joining` the concatenation of pieces. `dafny verify dfyconfig.toml` checks everything.

## What turned out not to hold

Each of these is proved both ways: the promise holds exactly when the condition does.

- A worker's status can land in a later generation, and a lane can be reset beside a live worker, if a dispatcher
  is killed between the spawn of its worker and the write of the pid, or the middle child between its spawn of
  the worker and its report of the pid (`LaneFaults.OwnGenerationExactly`).
- A generation's status can change, and a settled verdict can change under a shared lock, after either of these
  kills, or if a process is killed between its first file removal and the removal of meta
  (`LaneFaults.StatusStableExactly`, `LaneFaults.VerdictStableExactly`).
- `classify` and `reportStatus` disagree on a zero not written as `0`, and on multiples of 256, which the
  operating system reports as 0; codex-ask writes neither (`LaneVerdict.CompletedIffReportZero`).
- The what-if parser accepts calls of names such as `toString`, which every JavaScript object inherits
  (`WhatIfMinimal.CallsAccepted`).
- The rate limit needs a storage that never fails, no other page writing between a page's reading and its own
  writing of the list that all pages share, and a clock that nobody changes (`RateLimit.LimitHoldsExactly`).
- A time of tomorrow's first two hours, read shortly before midnight, is placed almost a day back although the
  two hours of slack would allow it (`Inbox.LatestReadingExactly`).
- Not every operation of the reclaimer starts right after a pause check: `worker-abandon`, `git worktree remove`
  and `environment rm` complete another operation and start after that one's check; all others do start right
  after their own (`ReclaimTheorems.OnlyWhenUnpaused`).

## Model

| member | source | states |
|---|---|---|
| `LaneVerdict.VerdictMeans` | plugins/codex/registry.go:299-333 | each verdict exactly by what the reader sees; completed, for one, means meta, a reply, no turn left open, and either the status `0` or no status and a dead worker |
| `LaneVerdict.ExitMeans` | plugins/codex/status.go:98-123 | the exit status exactly: 1 for no number, for zero 0 or 1 by the reply and an open turn, else the code's low eight bits, 255 for a number no int holds |
| `LaneVerdict.ZeroStatus` | plugins/codex/registry.go:309-320 | status `0` with a reply is completed and exits 0 exactly when the log starts no turn or completes one, and otherwise died and exits 1 |
| `LaneVerdict.CompletedIffReportZero` | plugins/codex/status.go:98-123 | for every numeric status, classify says completed and reportStatus exits 0 together exactly when the text is `0`, or is another spelling of zero on a run without a whole reply or cut off mid-turn, or is a code that is no multiple of 256 |
| `LaneVerdict.PaddedZeroDisagrees` | plugins/codex/status.go:99-107 | the family that disagrees is real: `00` with a whole reply exits 0 and classifies failed |
| `LaneVerdict.WrappedZeroDisagrees` | plugins/codex/status.go:117-122 | so is the other: `256` exits 0 and classifies failed |
| `LaneVerdict.WrittenCodesAgree` | plugins/codex/status.go:98-123 | on every exit code below 256, written as codex-ask writes it, the two agree and reportStatus exits with that code |
| `LaneVerdict.ItoaIsCanonical` | plugins/codex/detach.go:103 | only 0 is written `0`, only 75 reads as a lost worker, and no code is written as nothing |
| `LaneVerdict.RecoveryPreservesVerdict` | plugins/codex/status.go:62-77 | on any view of a dead or never registered worker, recording what pollStatus records leaves the classification as it was |
| `LaneInvariant.StepInv` | plugins/codex/dispatch.go:215-232 | every step of every process keeps the lane invariant: a worker without a status finds its own meta, cmd and pid, nobody clears the lane beside it, replies and zeros come from codex, pollers and scanners hold true readings |
| `LaneInvariant.InitInv` | plugins/codex/dispatch.go:198-218 | an empty lane satisfies it |
| `LaneInvariant.WorkerInv` | plugins/codex/detach.go:84-130 | the worker's steps keep it, in the order log, codex, rename, sweep, status |
| `LaneInvariant.CodexInv` | plugins/codex/detach.go:126-129 | codex writing its output and its log keeps it |
| `LaneInvariant.DispatchInv` | plugins/codex/dispatch.go:215-349 | a dispatcher's busy check, staging, five file removals, cmd, meta, spawn, started and pid keep it |
| `LaneInvariant.PruneInv` | plugins/codex/registry.go:480-492 | a pruner's three separate readings and its deletions file by file keep it |
| `LaneInvariant.ReaderInv` | plugins/codex/status.go:31-42 | awaiters and watchers entering, polling, recording and leaving keep it |
| `LaneInvariant.LockInv` | plugins/codex/registry.go:164-190 | taking the lock, and a lock holder killed at any point but between a worker's spawn and the write of its pid, keep it |
| `LaneInvariant.OsInv` | plugins/codex/status.go:137-172 | time passing and unrelated processes starting and exiting, pids reused, keep it |
| `LaneInvariant.DeadMeansQuiet` | plugins/codex/status.go:137-147 | a recorded pid that reads dead means no worker is alive without a status |
| `LaneInvariant.PollKeeps` | plugins/codex/status.go:56-79 | one turn of pollStatus from true readings leaves true readings |
| `LaneInvariant.PollsAgree` | plugins/codex/status.go:69-77 | what one awaiter records is what every other awaiter would record |
| `LaneInvariant.TerminalMeansPast` | plugins/codex/registry.go:300-333 | a terminal verdict, however its reads are spread, means no meta, a status, or no live pid |
| `LaneHistory.StepHistory` | plugins/codex/status.go:51-86 | without any of the three kills, every step keeps the recorded pid the generation's own worker's, the status what was last recorded, and the poll counts |
| `LaneHistory.AliveMeansUp` | plugins/codex/status.go:137-151 | outside a removal the recorded pid reads alive exactly while the generation's worker runs |
| `LaneHistory.PollHistory` | plugins/codex/status.go:56-79 | a poller that goes on has seen a dead worker fewer than four times or found a status, and what it records extends the codes recorded so far |
| `LaneTheorems.OwnGeneration` | plugins/codex/dispatch.go:215-307 | in every run, a worker's status lands only beside the meta of the generation that spawned it, and whoever resets or deletes does so while no worker is alive without a status |
| `LaneTheorems.StatusNeverChanges` | plugins/codex/status.go:51-86 | in every run, two moments of one generation that both have a status have the same one |
| `LaneTheorems.PollerRecordsLostWorkers` | plugins/codex/status.go:61-77 | an awaiter about to write finds its own generation with no worker or a killed one, no other status, and writes 0 exactly for a whole reply, 75 otherwise; without a pid only after the registration window |
| `LaneTheorems.RecordedWithinFourPolls` | plugins/codex/status.go:66-78 | once its worker was killed, no awaiter starts a fifth round while the lane has no status |
| `LaneTheorems.RecoveryKeepsVerdict` | plugins/codex/status.go:62-77 | in every run, an awaiter's write leaves the lane's verdict as it was |
| `LaneTheorems.GenerationNeverReused` | plugins/codex/status.go:88-93 | no holder of the lane lock ever finds another generation, and a reporter always finds a status |
| `LaneTheorems.SuccessIsCodexSuccess` | plugins/codex/detach.go:126-129 | a recorded 0 means that generation's codex exited 0; a completed lane's reply is the non-empty output that same run staged |
| `LaneTheorems.PrunerDeletesAlone` | plugins/codex/registry.go:480-492 | a pruner deletes while nobody else holds the lane and no worker is alive without a status |
| `LaneTheorems.PrunerDeletesTerminal` | plugins/codex/registry.go:484-488 | a pruner starts deleting only a lane that, at that moment, classifies completed, failed or no-run |
| `LaneOutcome.CompletedExactly` | plugins/codex/detach.go:84-130 | in every run, a lane whose worker has recorded its status is completed exactly when that worker's codex exited 0, wrote something and left no turn open in its log; its exit status is the codex run's own, or 1 for a success that is not complete |
| `LaneOutcome.OverIsExit` | plugins/codex/detach.go:93-130 | its status is the exit code of its codex run, its reply what that run wrote, and without a run its status is not 0 |
| `LaneProgress.DispatchAlone` | plugins/codex/dispatch.go:218-232 | a dispatcher that runs alone on any reachable free lane leaves it as it was exactly when it has meta, no status, and a worker that reads alive or a meta younger than five seconds; any other lane it clears and publishes anew |
| `LaneProgress.WorkAlone` | plugins/codex/detach.go:84-130 | a worker that runs alone leaves its codex's log, the output as the reply exactly for exit 0 and a non-empty output, no temp file, and the exit code as the status |
| `LaneProgress.EveryOutcome` | plugins/codex/registry.go:299-333 | after any run, a dispatch to a free lane that is not busy can end with every exit code, output and turn events of its codex, and the lane then reads as completed or failed exactly as these say, otherwise as died |
| `LaneProgress.AwaitAlone` | plugins/codex/status.go:51-86 | an awaiter that runs alone ends on a lane without a status: 75 when no pid came within fifteen seconds, and after a dead worker 0 or 75 by the reply, on the fourth reading |
| `LaneProgress.AwaitOn` | plugins/codex/status.go:56-65 | on any other lane it reports the status that is there, or reads again, and changes nothing |
| `LaneProgress.PruneAlone` | plugins/codex/registry.go:480-492 | a pruner that runs alone clears the lane exactly when it reads as completed, failed or no-run, and changes nothing otherwise |
| `LaneStability.VerdictNeverChanges` | plugins/codex/registry.go:287-333 | while some process holds the shared lock, every classification after a settled one gives the same verdict, even with pid, status and the rest read at three different moments each |
| `LaneStability.StepOnward` | plugins/codex/registry.go:552-590 | what a shared lock holder may rely on across one step of any other process |
| `LaneFaults.OwnGenerationExactly` | plugins/codex/detach.go:33-79 | workers write home in all runs, and resets are quiet in all runs, if and only if no dispatcher can be killed between the spawn and the pid write, and no middle child between its spawn of the worker and its report of the pid |
| `LaneFaults.StatusStableExactly` | plugins/codex/dispatch.go:305-307 | a generation's status is stable in all runs if and only if neither of those can happen, nor a kill between a process's first file removal and its removal of meta |
| `LaneFaults.VerdictStableExactly` | plugins/codex/registry.go:488 | a settled verdict is stable under a shared lock in all runs if and only if none of the three kills can happen |
| `LaneFaults.StolenLane` | plugins/codex/detach.go:33-79 | a complete run, after either of the two kills around a spawn, in which a worker that its lane does not name writes into the next generation, which then records a second status |
| `LaneFaults.LateWorker` | plugins/codex/registry.go:321-326 | a complete run in which a watcher calls a lane died and the orphan then makes it failed |
| `LaneFaults.FailedTooEarly` | plugins/codex/detach.go:48-52 | a complete run in which a watcher calls a lane failed, because no pid was reported, and the live worker then completes it |
| `LaneFaults.TornReset` | plugins/codex/dispatch.go:305-307 | a complete run in which a half-reset lane that had recorded 126 records 75 |
| `LaneFaults.TornPrune` | plugins/codex/registry.go:488 | a complete run in which a recycled pid brings a half-pruned lane back to life |
| `Watch.WatchMode` | plugins/codex/registry.go:552-590 | each lane is printed once, in the order of the visits, on the first visit that finds it settled, and exactly the settled lanes are printed; the watch ends with the first round in which no lane waits, or in a reuse on exactly the first visit that finds other names than the lock did |
| `Watch.Round` | plugins/codex/registry.go:557-588 | one round visits the lanes in order up to the first clash, and is the last exactly when no lane waits |
| `Watch.Visit` | plugins/codex/registry.go:558-584 | one visit prints at most its own lane, waits exactly for a busy or unsettled one, and clashes exactly when its own reading of the names differs from the one made with the lock, or a missing directory has names |
| `Watch.ClashExactly` | plugins/codex/registry.go:567-573 | what verifyGeneration compares with, from the maps as they are, is what the visit that took the lock read, and no names without a lock |
| `WatchLane.LocksPin` | plugins/codex/registry.go:563-573 | a watcher that reads lanes following the lane protocol, and keeps each lock until its lane settles, never finds other names: its watch has no clash |
| `WatchLane.PrintsCurrentState` | plugins/codex/registry.go:574-580 | what it prints for a locked lane, from readings at different moments, is the lane's verdict at the moment of the last of them |
| `Codecs.ShlexQuote` | plugins/codex/registry.go:230-247 | a POSIX shell reads the quoted text as exactly one word, the original, for every string (Shell Command Language, sections 2.2.2 and 2.2.3); only a text of safe characters goes unquoted |
| `Codecs.SafeExactly` | plugins/codex/registry.go:236-237 | the safe characters, by their code points |
| `Codecs.JsonEscape` | plugins/codex/registry.go:214-228 | a JSON reader gets back the text less its control characters other than tab, CR and LF (section 7 of RFC 8259) |
| `Codecs.EscapesMean` | plugins/codex/registry.go:214-228 | what the JSON reader makes of each two-character escape, and that it refuses any other (section 7 of RFC 8259) |
| `Codecs.ReadsNoRaw` | plugins/codex/registry.go:222-226 | a text the JSON reader accepts holds no raw control character and no quote without a backslash before it, so the escape must leave none |
| `Codecs.HexExactly` | plugins/codex/registry.go:214-228 | the hexadecimal digits and what each stands for, by their code points |
| `Codecs.CodePointRead` | plugins/codex/registry.go:214-228 | an escape by four hexadecimal digits reads as that code point |
| `Codecs.EscapeOneDecodes` | plugins/codex/registry.go:215-221 | five successive replacements escape each character once: decoding the escape of one character yields it |
| `Codecs.SplitLines` | plugins/codex/status.go:198-217 | the in-place scan yields the lines broken at CR, LF and CRLF, with no empty line after a final break |
| `Codecs.LinesMean` | plugins/codex/status.go:198-217 | which texts are one line: no LF or CR inside, and LF, CRLF or a lone CR after it |
| `Codecs.LinesOfPublished` | plugins/codex/dispatch.go:329 | lines without breaks, each written with a line feed, split back into themselves |
| `Codecs.MetaRoundTrip` | plugins/codex/dispatch.go:329 | reply, log and info come back from a published meta when none holds CR or LF |
| `Codecs.Tail` | plugins/codex/status.go:264-293 | the ring prints exactly the last n lines in order, for any n |
| `CommentOrder.SortSorts` | plugins/_shared/html/comments.js:285-287 | sorting by creation and id orders any records with distinct ids, losing none |
| `CommentOrder.SortedUnique` | plugins/_shared/html/comments.js:285-287 | there is one such order |
| `CommentOrder.LessTotal` | plugins/_shared/html/comments.js:285 | two records with different ids compare one way and not the other |
| `CommentOrder.LessTransitive` | plugins/_shared/html/comments.js:285 | the comparison is transitive |
| `CommentFold.CmtFold` | plugins/_shared/html/comments.js:286-306 | the passes over dictionaries and the pruning in place compute exactly the specified forest of the sorted records |
| `CommentFold.Scan` | plugins/_shared/html/comments.js:288-291 | positions, last edits and resolves as dictionaries |
| `CommentFold.Latest` | plugins/_shared/html/comments.js:292 | following `next` ends, at the end of the record's chain of edits |
| `CommentFold.Comments` | plugins/_shared/html/comments.js:293-297 | one node per record that is neither an edit nor a bare resolve, showing its latest edit |
| `CommentFold.Link` | plugins/_shared/html/comments.js:298-303 | each node is listed once, under its parent or at the top |
| `CommentFold.Prune` | plugins/_shared/html/comments.js:304 | filters the lists below a node deepest first, touches nothing else, and keeps the node exactly when it or a descendant has a body |
| `CommentFold.PruneAll` | plugins/_shared/html/comments.js:304-305 | pruning root after root keeps the alive roots and leaves nodes on parent cycles untouched |
| `CommentFold.Following` | plugins/_shared/html/comments.js:290-292 | a following edit comes strictly later in sorted order and edits this record |
| `CommentFold.LatestOnChain` | plugins/_shared/html/comments.js:292 | the latest record is reached from the comment by edits |
| `CommentFold.ChainsApart` | plugins/_shared/html/comments.js:290-292 | the edit chains of different comments never share a record |
| `CommentFold.EachInOneList` | plugins/_shared/html/comments.js:298-303 | with distinct ids, whatever the parent fields say, every node sits in exactly one list, once |
| `CommentForest.ForestOfPruned` | plugins/_shared/html/comments.js:304-305 | for any graph of parents, the pruned lists reach a node exactly when its parent chain ends and it or a descendant has a body, and along one walk only |
| `CommentForest.PathShort` | plugins/_shared/html/comments.js:304 | no walk from a root is longer than there are nodes, so pruning ends although parent fields may form cycles |
| `CommentForest.AliveStep` | plugins/_shared/html/comments.js:304 | a node survives exactly when it has a body or one of its children survives |
| `CommentTheorems.FoldIsForest` | plugins/_shared/html/comments.js:286-306 | cmtFold's result is a forest: a record's comment is reached from the roots exactly when its parent chain is acyclic and it or a descendant has a body, and by one walk |
| `CommentTheorems.ListsApart` | plugins/_shared/html/comments.js:298-305 | no list of the result names a comment twice |
| `CommentTheorems.FoldIgnoresOrder` | plugins/_shared/html/comments.js:286-287 | any permutation of the records gives the same forest |
| `CommentTheorems.LastEditWins` | plugins/_shared/html/comments.js:290 | of all edits of one record the last in order is followed, unless its id is empty, which ends the chain |
| `CommentTheorems.LatestIsLast` | plugins/_shared/html/comments.js:292 | where a chain of edits ends, nothing edits any more, unless the last edit has the empty id |
| `CommentTheorems.ShowsOwnLatest` | plugins/_shared/html/comments.js:293-297 | a comment shows the body and revision of the end of its own chain, which is on no other comment's |
| `CommentTheorems.SizeCountsAlive` | plugins/_shared/html/comments.js:307 | cmtSize of a surviving comment is the number of surviving comments in its thread |
| `CommentTheorems.FoldIsTidy` | plugins/_shared/html/comments.js:304-307 | the lists cmtFold returns are such that cmtSize terminates from every root |
| `CommentMeaning.ShownExactly` | plugins/_shared/html/comments.js:286-306 | the walks through cmtFold's result are exactly the threads of records, each a comment that answers the one before, that show a character that is no white space or lead down to a comment that does |
| `CommentMeaning.AliveMeans` | plugins/_shared/html/comments.js:304 | a comment stays exactly when it, or one further down its thread, shows such a character |
| `CommentMeaning.NodesMean` | plugins/_shared/html/comments.js:293-295 | there is a node for exactly the records that supersede no earlier record and do more than resolve |
| `CommentMeaning.NodeMeans` | plugins/_shared/html/comments.js:296-297 | a node says its record's id, time and anchor, the latest text with its author and revision, edited if that is another record's, gone if it is all white space, and resolved exactly if some record resolves it |
| `CommentMeaning.LatestMeans` | plugins/_shared/html/comments.js:290-292 | the text shown is the one record at the end of the revisions: each the last later record that supersedes the one before and has an id |
| `CommentMeaning.ListsInOrder` | plugins/_shared/html/comments.js:298-305 | the roots and every list of replies are in the sorted order |
| `CommentMeaning.OrderMeans` | plugins/_shared/html/comments.js:285 | records are ordered by creation, then by id |
| `CommentMeaning.LexMeans` | plugins/_shared/html/comments.js:285 | texts are compared at the first character where they differ, a beginning coming first |
| `CommentAnchor.CmtTextIndex` | plugins/_shared/html/comments.js:235-241 | the starts are where each text node begins in the concatenated text |
| `CommentAnchor.CmtNorm` | plugins/_shared/html/comments.js:242-251 | the loop computes the collapsed text and, for each of its characters, the position it came from |
| `CommentAnchor.KeptClimbs` | plugins/_shared/html/comments.js:243-249 | those positions rise strictly and stay inside the text |
| `CommentAnchor.KeptExactly` | plugins/_shared/html/comments.js:243-249 | kept is each character that is not white space, and the first of each run of white space but one at the start |
| `CommentAnchor.KeptAs` | plugins/_shared/html/comments.js:246-248 | a kept character stays itself, or becomes a blank if it is white space |
| `Whitespace.SpaceExactly` | plugins/_shared/html/comments.js:246 | the white space characters, by their code points |
| `CommentAnchor.CollapseSplits` | plugins/_shared/html/comments.js:242-251 | collapsing a concatenation is collapsing the second part in the context the first leaves |
| `CommentAnchor.CollapseKeepsWords` | plugins/_shared/html/comments.js:242-251 | collapsing changes no word and their order |
| `CommentAnchor.WordsSplit` | plugins/_shared/html/comments.js:242-251 | the words are the runs of characters that are not white space |
| `CommentAnchor.PointAt` | plugins/_shared/html/comments.js:254-258 | the backward search finds a node and an offset inside it that add back to the position, the last such node |
| `CommentAnchor.CmtRangeAt` | plugins/_shared/html/comments.js:252-262 | for any positions in order, the range is in bounds and selects exactly that part of the text, read node by node |
| `CommentAnchor.RangeIsSlice` | plugins/_shared/html/comments.js:252-262 | what a range selects across nodes is one slice of the text |
| `CommentAnchor.IndexOf` | plugins/_shared/html/comments.js:267-271 | the first occurrence, or -1 exactly when there is none |
| `CommentAnchor.QuoteSpan` | plugins/_shared/html/comments.js:272-276 | the two loops delimit what the quote contributes to the collapsed anchor |
| `CommentAnchor.SelectedReadsAlike` | plugins/_shared/html/comments.js:269-277 | the characters selected for a collapsed match collapse to the collapsed quote |
| `CommentAnchor.CmtFind` | plugins/_shared/html/comments.js:263-278 | null exactly when there is no text, or neither an exact nor a collapsed occurrence to which the quote contributes; otherwise a range in bounds, at the first occurrence, whose text equals the quote after collapsing, and exactly on the raw path |
| `WhatIfTokens.Tokenize` | plugins/_shared/html/components.js:5-15 | accepted pieces rebuild the source and the tokens are the pieces that are not blank; a refusal names the first character that starts no token, and the pieces rebuild what precedes it |
| `WhatIfTokens.CharsExactly` | plugins/_shared/html/components.js:3 | the digits, the letters and the operators, by their code points |
| `WhatIfTokens.TokenIsWhole` | plugins/_shared/html/components.js:3 | what the pattern matches inside a text it matches when it stands alone |
| `WhatIfTokens.ScanSpaced` | plugins/_shared/html/components.js:5-15 | tokens written with any blanks between them, and some where two would run together, scan back as those tokens |
| `WhatIfParser.Parser.Expr` | plugins/_shared/html/components.js:21 | the cursor loop agrees with the grammar: additive chains associate to the left |
| `WhatIfParser.Parser.Term` | plugins/_shared/html/components.js:22 | likewise multiplicative chains |
| `WhatIfParser.Parser.Unary` | plugins/_shared/html/components.js:23 | a sign reads as `0 op x` |
| `WhatIfParser.Parser.Primary` | plugins/_shared/html/components.js:24-41 | brackets, numbers, references and calls, with each error the code raises |
| `WhatIfParser.Parser.Call` | plugins/_shared/html/components.js:33-38 | a call's closing bracket, its name and its number of arguments are checked in that order |
| `WhatIfParser.Parser.Arguments` | plugins/_shared/html/components.js:33-34 | comma-separated arguments in order |
| `WhatIfParser.WhatifParse` | plugins/_shared/html/components.js:16-45 | for every source text the parser terminates with the tree or the error that the grammar gives it |
| `WhatIfLanguage.AcceptsExactly` | plugins/_shared/html/components.js:16-45 | the parser accepts exactly the language of a grammar in the usual sense, which names no parser, and yields its trees: sums and products associate to the left, signs stand for 0 plus or minus |
| `WhatIfLanguage.BracketsChangeNothing` | plugins/_shared/html/components.js:27 | a source that reads as a tree reads as the same tree in brackets |
| `WhatIfPrint.RoundTrip` | plugins/_shared/html/components.js:5-45 | every well-formed tree, printed with minimal brackets and any spacing, reads back as that tree |
| `WhatIfPrint.Reads` | plugins/_shared/html/components.js:21-24 | a printed tree is read back at the level it was printed for, whatever follows it |
| `WhatIfPrint.PrintsTokens` | plugins/_shared/html/components.js:3 | a printed tree is tokens, no two words side by side |
| `WhatIfMinimal.FewestBrackets` | plugins/_shared/html/components.js:21-41 | no source that reads as a tree has fewer opening brackets than the printed tree; and whatever reads is well-formed |
| `WhatIfMinimal.LevelsNest` | plugins/_shared/html/components.js:21-24 | a tighter place costs at most one pair of brackets |
| `WhatIfMinimal.PrintingSettles` | plugins/_shared/html/components.js:16-45 | whatever source reads, its printed tree reads as the same tree |
| `WhatIfMinimal.CallsAccepted` | plugins/_shared/html/components.js:4-38 | a call with enough arguments is accepted exactly when its name is min, max or one every JavaScript object inherits |
| `FlowLayout.Assign` | plugins/_shared/html/components.js:318-322 | callouts go to the last column with their id, above until three are there unless they name a side; a callout of no column stops the drawing |
| `FlowLayout.InItsStack` | plugins/_shared/html/components.js:319-322 | a callout is in a stack exactly when it belongs to that column and side |
| `FlowLayout.OnePlace` | plugins/_shared/html/components.js:319-322 | a callout has one place only |
| `FlowLayout.SideMeans` | plugins/_shared/html/components.js:321 | a callout that names no side goes above exactly while fewer than three callouts of its column are there |
| `FlowLayout.Measure` | plugins/_shared/html/components.js:324-332 | columns side by side with exactly the gap between them, each exactly as wide as its box or widest callout and 8; the heights are those of the tallest stacks |
| `FlowLayout.SlotsApart` | plugins/_shared/html/components.js:342-358 | any two boxes, of any columns and stacks, keep the callout gap between them |
| `FlowLayout.SlotInside` | plugins/_shared/html/components.js:332-335 | every box keeps the margin to the edges of the view above the legend |
| `FlowLayout.RectMeans` | plugins/_shared/html/components.js:327-357 | the coordinates: boxes centred on their column, the row of columns below the tallest stack and its connector, stacks 26 away from it and 50 apart, and the height of the picture |
| `FlowLayout.SizesMean` | plugins/_shared/html/components.js:309-325 | a callout is as wide as its wider text and 28, a column's box as its wider text and 28 but at least 50 |
| `FlowLayout.StackHMeans` | plugins/_shared/html/components.js:310 | a stack of n callouts is 44 n and 6 (n - 1) high |
| `FlowLayout.AllDrawn` | plugins/_shared/html/components.js:342-358 | each column and each position of each stack is drawn once, in its place |
| `FlowLayout.DrawStack` | plugins/_shared/html/components.js:348-357 | the running y of a stack puts every callout where its position says |
| `FlowLayout.Draw` | plugins/_shared/html/components.js:342-358 | the drawing loop yields exactly those boxes |
| `FlowLayout.FlowSvg` | plugins/_shared/html/components.js:316-361 | for any columns, callouts and widths: every column and callout is drawn exactly once and in its place, no two boxes come closer than 6, all lie inside the view with margin 10, the legend fits, and the picture is as large as that takes |
| `LanesLayout.FillRows` | plugins/_shared/html/components.js:400-402 | boxes fill one column, or two row by row, in order |
| `LanesLayout.RowHeight` | plugins/_shared/html/components.js:403 | a row is as tall as its tallest box |
| `LanesLayout.MeasureLane` | plugins/_shared/html/components.js:399-410 | the box width is exactly that of the widest text, or the least allowed, each row exactly as high as its tallest box, and the stack height that of all rows |
| `LanesLayout.DrawLane` | plugins/_shared/html/components.js:437-445 | every box of a lane is drawn in its place, and the boxes keep 8 between them and to their frame, and have room for their texts |
| `LanesLayout.BoxRectMeans` | plugins/_shared/html/components.js:399-441 | the coordinates: one column for up to four boxes and two for more, 8 between the boxes, rows one below the other |
| `LanesLayout.RowsMean` | plugins/_shared/html/components.js:407-444 | a row starts 8 below the end of the one above it |
| `LanesLayout.SizesMean` | plugins/_shared/html/components.js:393-414 | a box is 30 high, or 40 with a second line, and as wide as its wider line; a lane is one or two boxes wide inside |
| `LanesLayout.LanesSvg` | plugins/_shared/html/components.js:398-457 | for any boxes, widths, bridge and orientation: where both frames are and how large the picture is, frames inside the view and at least 32 apart, boxes apart and inside their frames, lanes never mixing, room for the bridge label |
| `ReclaimGc.Gc` | plugins/orca/bin/orca-reclaim.py:667-722 | whatever Orca, git, GitHub, the Sprites and the pause file answer, every operation of a pass is justified by what the pass has read, and, unless a pause is found at the start, every lane to be ended and every finished worker's terminal, worktree and Sprite is judged on its own answers and the verdict carried out, short of a pause or a change on a second reading; a dry run judges and makes no operation |
| `ReclaimGc.Pass` | plugins/orca/bin/orca-reclaim.py:675-722 | the same from the listing of the workers on, for exactly the listed workers in scope whose dispatch is settled or ended |
| `ReclaimGc.ReclaimAll` | plugins/orca/bin/orca-reclaim.py:701-721 | terminals, worktrees, late closes and Sprites in gc's order: each verdict still justified when it is applied, none left out |
| `ReclaimGc.StopLane` | plugins/orca/bin/orca-reclaim.py:646-664 | a lane is stopped right after a pause check, unless paused, and abandoned exactly after its stop was refused as fenced or unreachable |
| `ReclaimGc.SpriteAction` | plugins/orca/bin/orca-reclaim.py:545-555 | a Sprite is to be destroyed exactly by what was asked of it: nobody unsettled in its workspace, its terminal idle or its lane ended, and nothing unsaved |
| `ReclaimThorough.DestroyExactly` | plugins/orca/bin/orca-reclaim.py:545-555 | a Sprite is to be destroyed exactly if nobody unsettled is in its workspace, its terminal read idle or its lane was ended, and its checkout is saved |
| `ReclaimGc.Reap` | plugins/orca/bin/orca-reclaim.py:558-571 | it is destroyed, and its environment forgotten, after a second idle reading, unless its lane was ended, and a pause check right before; only a pause or a terminal no longer idle prevents it |
| `ReclaimGc.ReadTrees` | plugins/orca/bin/orca-reclaim.py:705-714 | every worktree in question is read and used by no unsettled worker; one is dropped exactly if it is local, its directory is gone and Orca still lists it |
| `ReclaimGc.RemoveTrees` | plugins/orca/bin/orca-reclaim.py:718 | every worktree found is judged on its own answers, each plan justified when it is applied, and carried out |
| `ReclaimGc.Finished` | plugins/orca/bin/orca-reclaim.py:681 | the workers dealt with are exactly the listed ones in scope of settled or ended dispatches |
| `Reclaim.TerminalAction` | plugins/orca/bin/orca-reclaim.py:501-529 | the verdict on a terminal is exactly the source's for what was asked; a terminal is closed only if its lane was ended, or it serves no unsettled dispatch and read idle |
| `ReclaimThorough.TerminalExactly` | plugins/orca/bin/orca-reclaim.py:501-529 | a terminal is closed, ended with its lane or released exactly in these cases: by its records, its dispatch, its use by others, its presence and its idleness |
| `Reclaim.Unsaved` | plugins/orca/bin/orca-reclaim.py:532-542 | what is asked of the origin, and the answer, exactly: the branches for a clean tree off the trunk, then what has landed if no branch has its head |
| `ReclaimThorough.SavedExactly` | plugins/orca/bin/orca-reclaim.py:532-542 | a tree is saved exactly if it is clean, has nothing off the origin, and is on the trunk or one of the lookups answered yes |
| `Reclaim.WorktreeAction` | plugins/orca/bin/orca-reclaim.py:574-587 | a worktree is judged on its terminals, one reading of the clock, and what the origin was asked, and a planned removal is justified by them |
| `ReclaimThorough.RemovalExactly` | plugins/orca/bin/orca-reclaim.py:574-587 | a removal is planned exactly if the terminals could be listed, each is an idle shell or being closed, and the tree is saved |
| `Reclaim.ReadAgainQuiet` | plugins/orca/bin/orca-reclaim.py:615-624 | the repeated checks pass only if the terminals read again were all planned and idle or stopping, none woke, and no live process holds a local tree; they fail only if one of these did change |
| `Reclaim.Apply` | plugins/orca/bin/orca-reclaim.py:598-643 | every verdict is carried out right after a pause check, unless that finds a pause or a second reading a change |
| `Reclaim.ApplyClose` | plugins/orca/bin/orca-reclaim.py:607-613 | an idle terminal is closed right after a second idle reading and a pause check, and left only if one of them prevents it |
| `Reclaim.ApplyRemoval` | plugins/orca/bin/orca-reclaim.py:614-639 | Orca is asked to remove a worktree right after its checks are repeated and a pause check, unless one of them prevents it |
| `Reclaim.RemoveNow` | plugins/orca/bin/orca-reclaim.py:628-639 | the worktree counts as removed exactly if Orca removed it, or, locally, git did after Orca did not track it, or its directory is gone; git is asked exactly if Orca does not track it and the directory is there |
| `ReclaimTrace.SoundGrows` | plugins/orca/bin/orca-reclaim.py:598-643 | a justified call keeps the trace justified |
| `ReclaimTrace.IdleExactly` | plugins/orca/bin/orca-reclaim.py:120-121 | a terminal is an idle shell exactly if it is no agent, its title ends in nothing or in the worktree's name, and it has been quiet for more than ten minutes |
| `ReclaimTrace.BaseMeans` | plugins/orca/bin/orca-reclaim.py:121 | the last part of a path is what stands between its last slash and those at its end |
| `ReclaimTrace.SettledExactly` | plugins/orca/bin/orca-reclaim.py:677 | a dispatch is done exactly once a worker of it completed or failed, or the run ended it |
| `ReclaimTrace.LastListed` | plugins/orca/bin/orca-reclaim.py:676 | the workers that count are those of the last listing |
| `ReclaimTrace.EndedExactly` | plugins/orca/bin/orca-reclaim.py:672-677 | the run ended a dispatch exactly when a stop or an abandonment of it was answered with a state |
| `ReclaimTrace.LiveExactly` | plugins/orca/bin/orca-reclaim.py:678-680 | in use are exactly the terminals, worktrees and workspaces of workers whose dispatch is not done |
| `ReclaimTheorems.RemovedNeverLive` | plugins/orca/bin/orca-reclaim.py:677-680 | in a justified trace, no listed worker of an unsettled dispatch was using a worktree when it was removed, by Orca or by git |
| `ReclaimTheorems.DestroyedNeverLive` | plugins/orca/bin/orca-reclaim.py:545-547 | nor was one in the workspace of a destroyed Sprite |
| `ReclaimTheorems.OnlyWhenUnpaused` | plugins/orca/bin/orca-reclaim.py:598-661 | every operation comes directly after a look at the pause file that found no pause, but for three: abandoning right after its stop, forgetting an environment right after its Sprite's destruction, and git's removal right after Orca's refusal and a look at the directory |
| `ReclaimTheorems.RemovedOnFreshReading` | plugins/orca/bin/orca-reclaim.py:614-639 | a worktree is removed, by Orca or by git after Orca's refusal, only if its terminals were read with no operation since; or, by Orca, if it is local and was found gone |
| `ReclaimTheorems.RemovedQuiet` | plugins/orca/bin/orca-reclaim.py:614-627 | whatever is removed by git, and whatever Orca removes that was not found gone, had its terminals listed with no operation since, each an idle shell, or of a lane the run ended, or idle before, serving no unsettled worker and not busy since; and nothing ran in a local one but in panes of the terminals to be stopped |
| `ReclaimTheorems.RemovedWasSaved` | plugins/orca/bin/orca-reclaim.py:532-542 | and had been read as clean, with nothing off the origin and its head on the trunk, on a branch of the origin, or landed |
| `ReclaimTheorems.DestroyedWasSaved` | plugins/orca/bin/orca-reclaim.py:545-571 | so had the checkout of every destroyed Sprite, whose worker was settled and either ended by the run or at an idle terminal on two readings, the second just before the last pause check |
| `ReclaimTheorems.ClosedNeverInUse` | plugins/orca/bin/orca-reclaim.py:501-529 | a terminal is closed only for a listed worker of it whose lane the run ended, or, serving no unsettled worker, after two idle readings, the second just before the last pause check |
| `ReclaimTheorems.UnpausedRemoves` | plugins/orca/bin/orca-reclaim.py:696-719 | in an unpaused pass, the worktree of a finished worker that nobody unsettled uses, if found, was judged, and if its removal was planned Orca was asked for it, unless a second reading found a change |
| `RateLimit.Limiter.Read` | plugins/_shared/html/ai-core.js:24-29 | one page's reading: the young numbers of the stored list, in order |
| `RateLimit.SeenExactly` | plugins/_shared/html/ai-core.js:24-29 | a page sees exactly the stored numbers less than a minute old, in order, and nothing if it cannot read |
| `RateLimit.Limiter.Finish` | plugins/_shared/html/ai-core.js:32-38 | the rest of its turn: a grant exactly when it saw fewer than 30, else the time to wait; the stored list becomes what it saw and the grant |
| `RateLimit.Limiter.Slot` | plugins/_shared/html/ai-core.js:30-40 | a whole turn with no other page in between |
| `RateLimit.LimitHoldsExactly` | plugins/_shared/html/ai-core.js:24-40 | over every run of any number of pages whose reads and writes interleave, from any stored content, no minute has more than 30 grants, if and only if no read fails, no write fails, no page is granted on a list that another page has written since, and the clock is not changed |
| `RateLimit.LookRemembers` | plugins/_shared/html/ai-core.js:24-29 | although old entries are filtered, a page's reading knows every grant of the last minute |
| `RateLimit.SettleRemembers` | plugins/_shared/html/ai-core.js:33-36 | and so does the list it stores |
| `RateLimit.StepWithinLimit` | plugins/_shared/html/ai-core.js:31-36 | a grant on the list as it stands never makes 31 in any minute |
| `RateLimit.Burst` | plugins/_shared/html/ai-core.js:27-35 | a concrete run: with failing reads or writes, 31 grants in one millisecond |
| `RateLimit.TwoPages` | plugins/_shared/html/ai-core.js:24-36 | a concrete run: two pages read 29 entries, both are granted, and the minute has 31 |
| `RateLimit.SetBack` | plugins/_shared/html/ai-core.js:28-34 | a concrete run: a clock put forward a minute and back again lets 31 into one of its minutes |
| `RateLimit.FirstIsOldest` | plugins/_shared/html/ai-core.js:28-38 | the entry the wait is computed from is the oldest that counts |
| `RateLimit.WaitFreesOldest` | plugins/_shared/html/ai-core.js:38 | after the wait nothing that old counts any more |
| `Stream.AiStream` | plugins/_shared/html/ai-core.js:86-119 | however the response is cut into pieces, the result is one function of its concatenation; a line still open at the end is not read |
| `Stream.Drain` | plugins/_shared/html/ai-core.js:96-98 | the inner loop handles exactly the complete lines and keeps the open one |
| `Stream.Handle` | plugins/_shared/html/ai-core.js:98-116 | one line's effect on text, reasoning, finish reason and tool calls |
| `Stream.LinesGrow` | plugins/_shared/html/ai-core.js:95-98 | more text completes the open line and adds its own lines |
| `Stream.FoldCollects` | plugins/_shared/html/ai-core.js:104-116 | the reply is the concatenated content and reasoning and the tool calls of all lines in order |
| `Stream.CallsKeepApart` | plugins/_shared/html/ai-core.js:110-116 | each tool call gets the name and argument pieces of its own index and no others, and the last id given for it, however calls interleave |
| `StreamMeaning.ReplyMeans` | plugins/_shared/html/ai-core.js:86-119 | whatever the pieces, the text, the reasoning and the tool calls are those of all complete lines joined in order, the finish reason is the last that is not empty, and the call throws exactly if a line is unusable |
| `StreamMeaning.DataMeans` | plugins/_shared/html/ai-core.js:98-101 | a line of `data:` and a trimmed payload, white space around both, yields what the parser makes of the payload, unless it is `[DONE]`; every other line yields nothing |
| `StreamMeaning.LinesOfWritten` | plugins/_shared/html/ai-core.js:97-98 | lines come out of the buffer as they were written, and a line still open stays in it |
| `Inbox.ParseInbox` | plugins/long-running/dashboard/inboxlines.py:166-184 | the loop from the last line up gives every line in place its moment, and marks it approximate exactly if it took the cursor's |
| `Inbox.Placed` | plugins/long-running/dashboard/inboxlines.py:93-101 | the loop back by days computes the reading of a clock |
| `Inbox.DailyIsNear` | plugins/long-running/dashboard/inboxlines.py:97-101 | a clock without a date reads as its time of day within the last day or the next two hours |
| `Inbox.DatedMeans` | plugins/long-running/dashboard/inboxlines.py:94-96 | a date with a guessed year is taken a year back exactly when it is more than 180 days ahead of the cursor |
| `Inbox.LatestReadingExactly` | plugins/long-running/dashboard/inboxlines.py:97-101 | that is the latest reading allowed, except for times of tomorrow's first two hours read shortly before midnight |
| `Inbox.MidnightMisses` | plugins/long-running/dashboard/inboxlines.py:97-101 | the failing side: at 23:30 a line of 00:30 is placed 23 hours back, not an hour ahead |
| `Inbox.CursorNeverRises` | plugins/long-running/dashboard/inboxlines.py:169-183 | the cursor never rises on the way up the file |
| `Inbox.LineMeans` | plugins/long-running/dashboard/inboxlines.py:174-183 | a line shows its clock's moment if that is up to sixteen hours back, which also moves the cursor, or ahead, or dated; any other line shows the cursor as a guess |
| `Inbox.TimeOfDay` | plugins/long-running/dashboard/inboxlines.py:175-179 | a line with a clock without a date that is no guess shows that time of day in its zone |
| `Inbox.FirstCursor` | plugins/long-running/dashboard/inboxlines.py:168-169 | the cursor starts at the time of the mark with the most lines |
| `Inbox.CursorMeans` | plugins/long-running/dashboard/inboxlines.py:171-172 | a line is dated from the cursor below it, lowered to exactly the earliest mark that covers the line |
| `Inbox.TimesFollowFile` | plugins/long-running/dashboard/inboxlines.py:176-183 | times that moved or took the cursor do not decrease down the file |
| `Inbox.NeverPastMark` | plugins/long-running/dashboard/inboxlines.py:171-172 | and are no later than any mark that covers their line |
| `Inbox.DatelessStaysNear` | plugins/long-running/dashboard/inboxlines.py:174-183 | a line without a date is at most two hours past its cursor and sixteen before it, and apart from it only if later |
| `Inbox.SortOrders` | plugins/long-running/dashboard/inboxlines.py:168 | marks are popped in order |
| `Inbox.Seen.Anchors` | plugins/long-running/dashboard/inboxlines.py:211-222 | a file's marks become the next marks, other files' stay; whenever a mark is added, all marks are written to the seen file, to the second; the result ends with how the file is now |
| `Inbox.MarksKeepRising` | plugins/long-running/dashboard/inboxlines.py:216-221 | mark counts stay strictly increasing and end at the file's length; earlier marks stand unless the file shrank |
| `Inbox.MarksRiseForever` | plugins/long-running/dashboard/inboxlines.py:211-222 | over any series of visits and of new processes that read the marks back from the seen file |

## Left out

Lane protocol:

- Flag parsing, credentials, MCP listing, prompt assembly, embedded files, daemon, wake-up and transcript
  registration: plumbing around the protocol, or steps after the status is durable.
- Atomic file replacement, file removal and renaming are taken to succeed, and each is one step; the check for a
  non-empty output and the rename of the reply are one step. That a write can fail is not modelled.
- Process start times are taken to be distinct and always recorded; codex's log is taken to be frozen once codex
  has exited, and a pruned lane's lock file not to be opened again. A spawn whose report is lost and the status
  126 recorded for it are one step.
- The files `register` and `sid` and the worker's own signal handling: nothing in the protocol reads them.
- The pruner's age and containment checks and the recursion of `psWalk`: a pruner here may try any lane at any
  time, which allows more runs than the code does. `LaneProgress.PruneAlone` speaks of a pruner that got past those checks.
- Lock-free readers such as `--ps` and `--collect`: they are outside the promises about locks.
- Watch.WatchMode: runs for as many rounds as it is given looks, because the original may wait forever; the records it prints are
  reduced to the lane's directory and the visit they come from.
- WatchLane.LocksPin: a missing directory is taken to stay missing, and to have no names, for the rest of the visit.
- Codecs.JsonEscape: the reader does not combine surrogate pairs, because the escape never writes them.

Comments:

- GitHub calls, marks, rendering, capturing an anchor from a selection, and anchors of kind entry.
- The library's sort is modelled by the sorted order itself.
- Text nodes are their strings; the DOM's tree walk and live ranges are not modelled.

What-if language:

- `whatifEval` and number formatting: evaluation follows the tree with floating-point operations and would add
  only easy members. A number is named by its token; `parseFloat` is not modelled.

Layouts:

- Text measuring, labels, colours, arrows and SVG output; coordinates are exact reals, not rounded or floating.
- A drawing of lanes takes exactly two lanes, as the code indexes them.

Reclaimer:

- The work done in parallel is done in sequence, in arbitrary order where the original sorts.
- Reasons, report lines, the tally, and the lock that lets one process remove at a time.
- The several calls within one idle check, one close, one checkout and one holder check are one call each.
- ReclaimWorld.World.CheckoutAt: a worktree on a paired host always reads as clean, because gc leaves that check to the removal itself, as the original does.
- Closing the terminal of an ended lane does not check whether another dispatch uses it, as in the original.

Browser and dashboard:

- `aiPost`, usage tallies, the text cleaning for vendors, and callbacks during a stream.
- Stream.AiStream: pieces are characters; decoding of bytes is left to the decoder, and JSON parsing to any function.
- RateLimit.Limiter.Finish: the sleep between turns and its cancellation are not modelled; each access to the storage is one step.
- Recognising heads, verbs, references and clocks in inbox lines; time zones are fixed offsets and a date's earlier year is given.
- Inbox.Seen.Anchors: one process at a time uses the seen file, and writing it succeeds.
