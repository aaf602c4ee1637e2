# Verification of the collector

A Dafny 4.11 model of the collector under `agent/`: what it reads from growing transcripts, what it keeps, and
what it answers. Every part of the collector modelled here makes the same kind of claim: that an incremental,
bounded or greedy form agrees with a simple one. The project states each claim, proves it, and where the code
does not meet it on every input, proves exactly when it does.

`dafny verify dfyconfig.toml` checks the whole project.

## What is modelled

**Usage (`Usage*.dfy`, `Lines.dfy`).** A transcript is a sequence of lines with their sizes in bytes and the record
each holds, if any. One pass folds records into hourly tables (`UsageScan`, `UsageTables`), marks the span of every
hour (`UsageCut`) and returns the offset the next pass starts from. A later pass rebuilds two clocks by looking back
(`UsageLookback`), replaces part of the store, and asks for a rewind when it met an earlier hour. The central result
is an equivalence. Whatever order the hours come in, the store after each of any number of passes is the store of one
straight pass exactly when every pass starts at 0, rewinds, or is clean: no record before its offset is of an hour and
an agent it replaces, and no answer, call, error result or change of an agent's name reaches across. All of this is
said of the lines alone (`UsageLines`). Of a pass that neither starts at 0 nor rewinds the theorem asks two things:
that the clocks are kept, which is again an exact condition on the last megabyte (`UsageClocks`), and that an answer
before the offset keeps to one agent or the hours there be lower, without which the equivalence fails (`UsageMixed`).
The imperative reader, parser, cut, lookback and store are classes and methods proved against these functions, and
`UsageMeaning` counts every number of the tables again from the lines themselves.

**The feed window (`Feed*.dfy`).** Parsed items fold into rows: calls and thoughts join badge groups of a run, later
records redraw, settle or take out earlier rows, and the head is let go at a limit. Proved: the bounded fold is the
end of the unbounded one, the page of a piece is the page of the file, no change to a row the reader has goes unsent
and a row that is gone had its every call delivered (`FeedAfter`), runs stay well formed on every page of a feed
(`FeedRuns`, `FeedSteady`), and no call or thought is lost or made up (`FeedCounts`). The class `Feed` runs the loops of the
fold over its window and known rows.

**Queue, records, pieces (`PromptQueue.dfy`, `TranscriptRows.dfy`, `TranscriptPiece.dfy`).** The queue of typed prompts
conserves them; rows of a record have addresses of their own; a piece read on in any steps is a piece read at once,
and peeking at a half-written record changes no object. The piece lives on the heap: its copy of the parser shares the
cells of open calls, and the frames say none of them is written to.

**Search (`SearchText.dfy`, `SearchFound.dfy`).** Hits are traced back through a case folding that changes lengths,
snippets are bounded and maximal in UTF-16 units (section 2.1 of RFC 2781), and totals and newest hits survive rows
that come again, with the exact condition for each.

**Smaller parts.** Codex threads put down to calls (`CodexThreads.dfy`), the walk under a ceiling (`RepoWalk.dfy`),
paging of UTF-8 files (section 3 of RFC 3629, `FilePages.dfy`), the state of a session cut at the birth of its process
(`SessionStores.dfy`, `SessionState.dfy`), the book of questions against its file (`AskedBook.dfy`) and the pairing of
homes with accounts (`HomePairs.dfy`). `Sequences.dfy` and `Options.dfy` are shared helpers.

## Where the code and its words differ

- The replay check says that two passes store what one stores. The code meets this exactly under the conditions of
  `UsageTheorems.TwoPassesEqualOne`; `UsageExamples.DisorderLosesAnHour` and `UsageExamples.LateErrorIsNotCounted` are
  transcripts on which it does not.
- A half-written last line after no record with an hour is not read again by the next pass, and its record is missing
  from the store from then on (`UsageTheorems.TornLineIsSkipped`, `UsageTorn.TornRecordIsLost`).
- The search says it keeps the newest hits. It does so exactly while a row that gives hits back brings as many or
  leaves no other hit out (`SearchFound.AlwaysNewestIff`); `SearchGoing.TakenBackAfterLettingGo` is three rows on
  which it does not.
- A window smaller than a character never moves (`FilePages.PagesRebuild`).
- A task that shares its id with an agent stays at work after a birth (`SessionState.NoOldTaskLeftIff`). A call made
  within the second of the birth is let go when its time has a fraction, while work of the same second stays.

## Model

| member | source | states |
|---|---|---|
| `UsageTheorems.TwoPassesEqualOne` | agent/usage/replay.py:40-60 | Storing any line-aligned prefix and then the parse from its returned offset is storing the whole file exactly when the second pass starts at 0 or rewinds, or the hours and agents before the offset are apart from those the pass replaces and nothing reaches across it. Hours may come in any order. Only of a pass that neither starts at 0 nor rewinds is it asked that the clocks are kept and that the answers before the offset are each of one agent |
| `UsageTheorems.TwoPassesInOrder` | agent/usage/replay.py:40-60 | Over hours that never decrease no second pass rewinds, and all that is left of the condition is that nothing reaches across the offset |
| `UsageTheorems.OrderedNeverRewinds` | agent/usage/parse.py:149-155 | From a boundary on, hours that never decrease never make a pass ask for a rewind |
| `UsageTheorems.RunKeepsStraight` | agent/usage/replay.py:27-60 | Any number of passes over a growing file, rewinding ones among them, in any order of hours: the store equals one straight parse after every pass exactly when every pass starts at 0, rewinds or is clean; of the passes that neither start at 0 nor rewind the same two things are asked as of the second pass above |
| `UsageTheorems.RunLeavesBoundaries` | agent/usage/parse.py:413-424 | Over hours that never decrease each offset of a clean run is again the first line of an hour, with no answer across it |
| `UsageTheorems.PassKeepsStraight` | agent/usage/replay.py:46-54 | One more pass from any line keeps the store equal to a straight parse exactly when it rewinds, starts at 0, or the hours are apart and nothing reaches across; asked of a pass that does neither are kept clocks and answers of one agent |
| `UsageTheorems.PassKeepsStoreIff` | agent/usage/replay.py:27-37 | Without a rewind, replacing the hours from the first one on gives the whole store if and only if no counted record before the offset is of an hour and an agent the batch replaces, and no answer, no counted call, no error result and no change of an attributed name crosses the offset, each said of the lines; the clocks are kept, and an answer before the offset keeps to one agent or the hours there are lower |
| `UsageMixed.MixedAgentsAreRight` | agent/usage/replay.py:27-37 | Why each answer before the offset must keep to one agent, or the hours there be lower: with an answer of two agents a call stands on both sides and the store is right all the same |
| `UsageReplay.CallsApartIff` | agent/usage/parse.py:343-358 | No call id counted in a line from the offset on stands in a counted line before it: that is what the two passes hold apart |
| `UsageReplay.ErrorsApartIff` | agent/usage/parse.py:253-262 | No result past the stored lines fails a call that a line before the offset counts: that is what the calls of the first pass say |
| `UsageReplay.KindsSettledIff` | agent/usage/parse.py:361-387 | The last line that names an agent, among the lines each side is stored with and among all, names it alike for every answer begun: that is what the kinds of the passes say |
| `UsageLines.CallsAre` | agent/usage/parse.py:333-358 | What a pass knows of a call is told by the lines: met in a counted block, and filed under the hour of the first line of its answer |
| `UsageLines.NamesAre` | agent/usage/parse.py:361-387 | The name a pass knows an agent by is that of the last line naming one |
| `UsageLines.AnswersAre` | agent/usage/parse.py:117-126 | The answers of a pass, their agents and hours are those of the lines that begin them |
| `UsageTheorems.RewriteIsStraight` | agent/usage/replay.py:49-54 | A full parse written over any store of the file leaves exactly its own tables |
| `UsageTheorems.OffsetStarts` | agent/usage/parse.py:403-424 | The offset is the first line of an hour, or the end of what was read when no line names an hour, and no answer of the read lines stands on both sides of it |
| `UsageTheorems.SinceIsFirstHour` | agent/usage/parse.py:77-79 | The first hour a pass reports is the hour of the record its offset points at, and is there exactly when some record names an hour |
| `UsageTheorems.BoundaryHours` | agent/usage/parse.py:149-155 | With hours that never decrease, everything before a boundary is of strictly earlier hours than the pass replaces |
| `UsageTheorems.NextBoundary` | agent/usage/parse.py:413-424 | The offset a pass returns is again a boundary of everything read so far |
| `UsageTheorems.CutLeavesTheTail` | agent/usage/parse.py:413-424 | After the cut, the condition on answers is only that none before the offset goes on past the stored lines |
| `UsageTheorems.LateHourIsLost` | agent/usage/replay.py:33-37 | For any file: a record before the offset, of an hour the pass replaces and an agent it has rows of, is missing from the store |
| `UsageTheorems.TornLineIsSkipped` | agent/usage/parse.py:66-68 | The offset falls inside a half-written last line exactly when no record before it in the pass names an hour; otherwise it is the start of a line |
| `UsageTorn.TornRecordIsLost` | agent/usage/parse.py:66-68 | Such a line is lost: once it is whole the next pass starts inside it, and unless that pass rewinds the store counts fewer records of its hour and agent than there are |
| `UsageExamples.DisorderLosesAnHour` | agent/usage/replay.py:33-37 | Hours 12, 10, 13, 10: the offset falls at the first 10 and the row of 12 is gone from the store |
| `UsageExamples.LateErrorIsNotCounted` | agent/usage/parse.py:259-262 | An error result past the offset of a call before it is not counted: the store differs from the straight one |
| `UsageExamples.RewindIff` | agent/usage/parse.py:149-155 | A pass asks for a rewind exactly when it met a counted record of an earlier hour than its first |
| `UsageLoss.AnswersLost` | agent/usage/parse.py:117-139 | An answer on both sides of the offset makes the stored rows differ: the rows count it twice |
| `UsageLoss.CallsLost` | agent/usage/parse.py:343-358 | A call met on both sides of the offset makes the stored tool rows differ |
| `UsageReplay.EventsKept` | agent/usage/parse.py:274-285 | Where no earlier hour was met and the clocks are rebuilt, the event rows after two passes are those of one |
| `UsageReplay.ToolsKept` | agent/usage/parse.py:333-358 | With answers and calls apart, the tool rows are kept exactly when no late error result reaches back |
| `UsageReplay.RowsKept` | agent/usage/parse.py:361-387 | With answers apart, the rows are kept exactly when the attributed names are settled |
| `UsageReplay.NoRewindNoEarlierHour` | agent/usage/parse.py:149-155 | A pass that asks for no rewind met no counted record of an hour before its first |
| `UsageSplit.RunTogether` | agent/usage/parse.py:64-141 | Record by record, a whole pass is the pass up to the offset joined with the pass from it, with late errors counted on the earlier side |
| `UsageCut.Cut` | agent/usage/parse.py:413-424 | The fixpoint loop ends and returns the greatest safe place not past the first record of the latest hour |
| `UsageCut.SafeBelowIsGreatest` | agent/usage/parse.py:417-423 | That place straddles no hour, and no safe place lies between it and where the search began |
| `UsageCut.CutStartsAnHour` | agent/usage/parse.py:413-424 | The cut is the first record of some hour |
| `UsageCut.RunMarks` | agent/usage/parse.py:403-410 | After any pass every marked hour spans exactly its records, first to last, and the hours its answers stand under |
| `UsageCut.SafeKeepsWhole` | agent/usage/parse.py:413-424 | No answer has records on both sides of a safe place |
| `UsageLookback.LookbackOf` | agent/usage/parse.py:170-212 | The backward scan returns the fold of the whole lines within the last megabyte before the offset |
| `UsageLookback.LookIsExact` | agent/usage/parse.py:170-212 | Where the lookback reaches the start of the file, times are readable and each answer is contiguous, both clocks are those of a straight pass |
| `UsageLookback.LookNeverInvents` | agent/usage/parse.py:195-211 | Where times are readable, a clock the lookback reports from any window is the one a straight pass holds: a short window can only lose one |
| `UsageLookback.AnswerClockIsExact` | agent/usage/parse.py:195-204 | The answer clock is exact if and only if the window holds a line that sets it, or the clock was unset before |
| `UsageClocks.UserClockIsExact` | agent/usage/parse.py:170-212 | The user clock is exact if and only if the last stamped prompt of the window has no time, or an answer begins after it exactly when the window sees one begin; or, with no prompt in the window, the last before it had no time or was answered since |
| `UsageClocks.ClocksRebuiltIff` | agent/usage/parse.py:170-212 | At any offset, however far, both clocks are rebuilt exactly when both conditions hold of the last megabyte |
| `UsageParser.ParseFile` | agent/usage/parse.py:42-167 | The parse with its loops, filter and cut computes exactly the specified tables, offset, first hour and rewind |
| `UsageParser.ReadLines` | agent/usage/parse.py:64-141 | The loop over lines leaves the state of the fold |
| `UsageParser.Reader.Take` | agent/usage/parse.py:75-141 | One record changes the reader as one step of the fold |
| `UsageParser.UserRecord` | agent/usage/parse.py:246-271 | Interrupts and failed calls of a prompt are counted as specified |
| `UsageParser.Content` | agent/usage/parse.py:333-358 | Thoughts and calls of an answer are counted once a call id |
| `UsageParser.Store.Apply` | agent/usage/replay.py:27-37 | The deletions and writes of a batch leave exactly the applied store |
| `UsageParser.Replay` | agent/usage/replay.py:40-60 | The check itself: it returns true exactly when storing two passes gives the tables of one |
| `UsageMeaning.TokensAreGreatest` | agent/usage/parse.py:309-330 | Counter by counter, the tokens of an answer are the greatest any of its records reports, or zero |
| `UsageMeaning.AnswersBegin` | agent/usage/parse.py:117-126 | An answer stands under the hour, model and agent of its first record |
| `UsageMeaning.RowsAddUp` | agent/usage/parse.py:361-387 | A row counts its answers and adds up their tokens, counter by counter, their thoughts and their waits, and of no other answer |
| `UsageMeaning.LongestWait` | agent/usage/parse.py:384-387 | The longest wait of a row is the longest of its answers |
| `UsageMeaning.EventsTally` | agent/usage/parse.py:84-111 | An event row counts each record of its hour and agent once: messages, summaries, failed requests and interrupts of either kind |
| `UsageMeaning.WaitCountsOnce` | agent/usage/parse.py:288-295 | A wait is counted in exactly one bucket, the first whose end it stays below |
| `UsageMeaning.CallsTally` | agent/usage/parse.py:333-358 | A tool row counts each call id once, under the hour of its answer's first record |
| `UsageMeaning.ErrorsTally` | agent/usage/parse.py:253-262 | A tool row counts every failed result of a call, under the key the lines before the result count the call in |
| `FeedCounts.CallsAreKept` | agent/chat/window.py:127-224 | One item brings its call into the window and takes out the calls it delivers, as multisets; settling and redrawing keep every call |
| `FeedCounts.AllCallsAreKept` | agent/chat/window.py:168-224 | Over any items, the calls in the window and those delivered are those there were and those brought |
| `FeedCounts.ThoughtAdds` | agent/chat/window.py:197-209 | A thought adds its count and its tokens to those of the window |
| `FeedPages.PageOfPieceIsPageOfFile` | agent/chat/window.py:36-55 | If the head of a piece folds into at most `limit` rows and later records refer to nothing at or before it, a settled piece gives the window of the whole file, and says as the whole does that more came before |
| `FeedPages.BoundedRefinesUnbounded` | agent/chat/window.py:249-284 | When everything referred to is within the last `limit` rows, the window at every record is the last `limit` rows of the fold that lets nothing go, and `total` counts the rows of that fold |
| `FeedPages.TotalsCount` | agent/chat/window.py:279-284 | The total is the rows still there and every row let go, and `moreBefore` says exactly whether one was |
| `FeedAfter.NoChangeGoesUnsent` | agent/chat/window.py:249-264 | In a page after a position every row handed out before that is still known and was altered is handed out again, once, in feed order; the other known rows are as handed out; a row no longer known was a group each of whose calls was delivered by a record the page read; and a group still known lost no other call |
| `FeedAfter.SentSinceIs` | agent/chat/window.py:249-264 | Where positions never fall, those deliveries are exactly the ones of records past the position that came before the page was full |
| `FeedAfter.RunsStayWellFormed` | agent/chat/window.py:168-247 | Through a whole fold each run has one group a kind, one thinking group, one run number, and no number twice |
| `FeedSteady.PageRunsStayWellFormed` | agent/chat/window.py:249-264 | The same of a page after a position, before it is come past and after, for the new rows and for those the reader has |
| `FeedSteady.FeedRunsAreWellFormed` | agent/chat/window.py:168-264 | Both hold of every feed whose thoughts stand at their records under numbers of their own and whose rows that fix another end a run |
| `FeedRuns.KeepRuns` | agent/chat/window.py:168-224 | Every item leaves the runs of a window well formed |
| `FeedRuns.TailSays` | agent/chat/window.py:226-247 | The run at the end has one number, and the next number is drawn in none of its groups |
| `FeedWindow.KeepUnder` | agent/chat/window.py:168-224 | An item that finds what it looks for in the window does the same with any rows above it |
| `FeedWindow.KeepAllCounts` | agent/chat/window.py:168-224 | Items never leave a window shorter, and the total moves with its length |
| `FeedFold.Feed.Place` | agent/chat/window.py:89-102 | A redrawn row takes the place of the first row of its place, number and role or fixed role |
| `FeedFold.Feed.FindCall` | agent/chat/window.py:104-121 | The last row holding the call is found, the window before the known rows |
| `FeedFold.Feed.Settle` | agent/chat/window.py:127-140 | A mark changes the call it names and nothing else, and a known row is touched |
| `FeedFold.Feed.DropCall` | agent/chat/window.py:146-166 | A delivered call leaves its group; an empty group leaves the window |
| `FeedFold.Feed.RunGroups` | agent/chat/window.py:231-247 | The scan from the end gathers the groups of the run, in order |
| `FeedFold.Feed.KeepTool` | agent/chat/window.py:197-222 | A call joins the group of its kind in the run or starts one |
| `FeedFold.Feed.KeepThink` | agent/chat/window.py:197-209 | A thought joins the thoughts of the run or starts a group of them |
| `FeedFold.Feed.Keep` | agent/chat/window.py:168-224 | One item changes window, known rows and total as the fold specifies |
| `FeedFold.Feed.Read` | agent/chat/window.py:249-287 | The loop over records gives the bounded fold |
| `FeedFold.Feed.ReadAfter` | agent/chat/window.py:249-296 | The loop with a position gives the page after it |
| `PromptQueue.QueueConserves` | agent/chat/queue.py:51-96 | Over any run of operations every prompt queued is waiting or has left, exactly once |
| `PromptQueue.QueueKeepsOrder` | agent/chat/queue.py:51-96 | Waiting prompts stand in the order they were queued |
| `PromptQueue.ReadLeavesCommands` | agent/chat/queue.py:59-67 | Reading leaves exactly the commands, in order |
| `PromptQueue.DrawnAtMostOnce` | agent/chat/queue.py:83-96 | No prompt is drawn twice in any run |
| `PromptQueue.Pending.Drawn` | agent/chat/queue.py:83-96 | The method returns and forgets as specified |
| `PromptQueue.Pending.ByText` | agent/chat/queue.py:75-81 | The first waiting prompt with the words leaves the queue and is the last to have left |
| `TranscriptRows.AddressesAreUnique` | agent/chat/records.py:209-233 | Rows of one record that stand at it never share place, role and number |
| `TranscriptRows.OnlyPromptsAreDrawnAgain` | agent/chat/records.py:1-1 |  |
| `TranscriptRows.CutoffMarksOpen` | agent/chat/records.py:131-149 | A cutoff marks every call still open, once, in the order the calls came, and changes no other |
| `TranscriptRows.CutoffOnce` | agent/chat/records.py:131-149 | A second cutoff marks nothing and changes nothing |
| `TranscriptPiece.ReadingOnIsReadingAtOnce` | agent/chat/tail.py:152-262 | However a growing file is read, in any visits, the rows of the piece and its edge are what one stream of the file yields |
| `TranscriptPiece.Piece.ReadOn` | agent/chat/tail.py:207-235 | Reading on leaves the piece holding one pass over all whole lines up to the length |
| `TranscriptPiece.Piece.ReadLine` | agent/chat/tail.py:220-235 | One line moves position, rows and parser as one pass would |
| `TranscriptPiece.Piece.Edge` | agent/chat/tail.py:243-262 | The half-written record gives the rows the stream gives, and nothing that was there before is modified: not the piece, its queue, or any shared cell of a call |
| `TranscriptPiece.Parser.CutOff` | agent/chat/records.py:131-149 | Every call left open is marked by a new cell, once; no cell that was there is written |
| `TranscriptPiece.Parser.Clone` | agent/chat/tail.py:258-261 | The copy has its own queue and dictionary and shares the cells of calls |
| `TranscriptPiece.Parser.TakeCommand` | agent/chat/records.py:152-172 | A command card takes the row the queue drew or stands at its record, and waits for an answer by name |
| `TranscriptPiece.Parser.TakeCommandAnswer` | agent/chat/records.py:175-199 | An answer comes on the card of its command, once |
| `TranscriptPiece.Parser.Parse` | agent/chat/records.py:209-233 | The parser on the heap gives the rows and the knowledge of the specified parse, writing to no cell that was there |
| `SearchText.Spans` | agent/chat/search.py:80-102 | The walk visits hits so that every place the question stands at overlaps one; spans are in order and apart, one a hit but for hits that begin in a character the span of an earlier hit holds; none is reported exactly when the question stands nowhere |
| `SearchText.HitFolds` | agent/chat/search.py:91-97 | The span of a hit folds to text that contains the question at the place of the hit |
| `SearchText.SameLengthSamePlace` | agent/chat/search.py:91-93 | A folding that keeps the length keeps every place, so nothing needs tracing back |
| `SearchText.AllReported` | agent/chat/search.py:94-102 | With places kept, every hit is reported, at its own place |
| `SearchText.FoundIff` | agent/chat/search.py:88-102 | A span is reported exactly when the question stands in the folded text |
| `SearchText.Snippet` | agent/chat/search.py:115-140 | The snippet is at most 160 units, holds the hit or the longest head of it that fits, at the reported place; it stops only at an end of the text or where neither neighbour fits; inside the text its sides differ by two characters at most |
| `SearchFound.TotalHoldsIff` | agent/chat/search.py:163-183 | After a row is taken the total counts the hits of the standing rows exactly when the row it comes for was queued, drawn again before, or without hits |
| `SearchFound.TotalsHoldIff` | agent/chat/search.py:163-217 | Over any run the total is right at every row exactly when only such rows come again |
| `SearchFound.TakeHolds` | agent/chat/search.py:163-217 | Kept hits are hits of standing rows, in order, without repeats, within the limit; counted rows are exactly the loose rows with hits |
| `SearchFound.NewestKeptIff` | agent/chat/search.py:185-217 | The newest hits stay kept over a row exactly when it gives back no more kept hits than it brings, or no other hit is out |
| `SearchFound.AlwaysNewestIff` | agent/chat/search.py:143-217 | Over any run, the newest are kept at every row exactly when every row refills the room it makes |
| `SearchFound.CutIffLeftOut` | agent/chat/search.py:219-227 | `cut` is said exactly when a standing hit is not in the answer |
| `SearchGoing.TakenBackAfterLettingGo` | agent/chat/search.py:185-191 | Three rows read by a search that keeps one hit, the third the second again without its hit: one hit stands and none is kept |
| `SearchGoing.Found.Take` | agent/chat/search.py:163-183 | The method takes a row as specified; its total is right exactly when the row is fair |
| `SearchGoing.Found.Back` | agent/chat/search.py:174-181 | Of the two keys a row may come for, the first with hits is taken back, and both are forgotten |
| `SearchGoing.Found.Count` | agent/chat/search.py:193-217 | Hits are counted and kept among the newest; a letter seen before gives none |
| `SearchGoing.Found.Drop` | agent/chat/search.py:185-191 | The hits of a row leave total and kept hits |
| `SearchGoing.Found.Answer` | agent/chat/search.py:219-227 | The answer is the kept hits from the oldest on, all of standing rows, and says whether it leaves one out |
| `CodexThreads.Runs` | agent/codex_archive.py:272-330 | The bounded query, bisection and set of told calls give, newest first, what weighing every call for every thread gives |
| `CodexThreads.SpanLosesNone` | agent/codex_archive.py:297-305 | The span asked of the database loses no thread that may be put down to a call |
| `CodexThreads.SliceIsWindow` | agent/codex_archive.py:318-319 | The bisected slice is exactly the calls of the 60 s window |
| `CodexThreads.RunsAreSound` | agent/codex_archive.py:313-329 | Every thread goes to a call of its own candidates, still out unless none was: the first weighed that has no thread, and a call with a thread again only when every call weighed has one |
| `CodexThreads.EachThreadOnce` | agent/codex_archive.py:313-330 | The threads put down are exactly those with a candidate and a rollout, each once, in the order they were made |
| `CodexThreads.CallsTakeThreadsInTurn` | agent/codex_archive.py:346-359 | K calls in one place, all still out, take the threads made there in order, and the latest takes the rest |
| `CodexThreads.CallOf` | agent/codex_archive.py:313-324 | The call of one thread is the specified one, and there is none exactly when the thread is skipped |
| `CodexThreads.Bisect` | agent/codex_archive.py:318-318 | The binary search returns the first place past, or not before, a time |
| `CodexThreads.UnderIsWithin` | agent/codex_archive.py:333-335 | A path is under a root exactly when it is the root or goes on past it with a slash |
| `CodexThreads.BeforeMarkIs` | agent/codex_archive.py:340-340 | The part before the directory of tasks ends where that first begins |
| `RepoWalk.WalkUnder` | agent/chat/repo.py:431-474 | The walk ends at the n-th directory of the breadth-first order: it has found exactly the files of those before it, with those of as many of its entries as the ceiling leaves, or with all of its files when the time is up there first; unstopped it has found every file, stopped every file no deeper than that directory, and the ceiling stops it only when there is more |
| `RepoWalk.WalkAll` | agent/chat/repo.py:443-474 | The same under the ceiling as it is; while the time was never up in a directory opened, it stops short exactly when there is more to see than the ceiling |
| `RepoWalk.EndFinds` | agent/chat/repo.py:431-474 | What a walk ended at a directory has found is a prefix of the whole walk, and every file no deeper than that directory |
| `RepoWalk.WalkFindsAll` | agent/chat/repo.py:431-474 | The unbounded walk finds exactly the files under readable, walked directories, as a multiset defined directory within directory |
| `RepoWalk.WalkIsBreadthFirst` | agent/chat/repo.py:434-437 | Files are found in non-decreasing depth |
| `RepoWalk.EachFileOnce` | agent/chat/repo.py:455-471 | With distinct names in each directory no file is found twice |
| `RepoWalk.Open` | agent/chat/repo.py:455-471 | One directory gives its files and walked directories until the ceiling stops it |
| `FilePages.PagesRebuild` | agent/chat/disk.py:416-463 | Following `next` through a text without NUL rebuilds it and comes to its end exactly when every character fits the window; four bytes fit every character |
| `FilePages.PagesFrom` | agent/chat/disk.py:443-463 | The same from any character on: every chunk decodes, and a window too small gets stuck with less than the text |
| `FilePages.ChunkIsWhole` | agent/chat/disk.py:443-463 | A chunk read from a character ends with a whole one, within the window, and holds one exactly when the first fits |
| `FilePages.TrimUtf8` | agent/chat/disk.py:404-413 | The scan from the end cuts what the specification cuts |
| `FilePages.TrimmedTail` | agent/chat/disk.py:404-413 | Bytes that end inside a character lose exactly what there is of it |
| `FilePages.ReadFile` | agent/chat/disk.py:443-463 | The chunk, its offset and next place are the specified ones |
| `Utf8.SplitJoined` | agent/chat/disk.py:457-459 | Characters joined and split again are the same characters |
| `Utf8.TextRoundTrip` | agent/chat/disk.py:457-459 | Encoding every scalar value and decoding gives the text back |
| `SessionState.AfterARead` | agent/sesstate/__init__.py:73-105 | After any run of events, a read that knows the birth leaves nothing at work from before it in any store, no earlier call, and reading again changes nothing, given tasks and agents with ids of their own |
| `SessionState.NothingOutlives` | agent/sesstate/__init__.py:73-79 | What is at work after the cut is exactly what was at work and began no earlier, in order, in all four stores; the calls left are exactly those not made before |
| `SessionState.NoOldTaskLeftIff` | agent/sesstate/tasks.py:85-121 | No old task is left at work exactly when none shares its id with an agent |
| `SessionState.NoOldAgentLeft` | agent/sesstate/background.py:86-92 | Whatever the ids, no old agent, workflow or teammate is left at work |
| `SessionState.LetGoTwice` | agent/sesstate/__init__.py:73-79 | Letting go twice is letting go once |
| `SessionState.RefusedLetterRestores` | agent/sesstate/background.py:51-83 | A refused letter, whatever happened since: the agent its sending woke, if at work, is over as before with the answer it had, or else the one it has had since; over or gone it stays so; no other work changes, and an agent not touched since is exactly as it was |
| `SessionState.RefusedAtOnce` | agent/sesstate/background.py:72-83 | Waking and unwaking is the identity |
| `SessionState.OpenedKeepsNewest` | agent/sesstate/calls.py:76-85 | The calls kept are the newest 64, one an id, the call just opened last |
| `SessionState.RunHolds` | agent/sesstate/feed.py:128-310 | Over any run each store keeps one entry an id and open calls stay within 64 |
| `SessionStores.PruneKeepsLive` | agent/sesstate/tasks.py:124-134 | Pruning removes nothing at work and moves none of it |
| `SessionStores.PruneBounds` | agent/sesstate/background.py:115-123 | A pruned list is within its limit or all at work, and loses no more than it must |
| `SessionStores.PruneTakesTheOldest` | agent/sesstate/workflows.py:158-166 | What is pruned ended no later than anything over that is kept |
| `SessionStores.EndEachLive` | agent/sesstate/workflows.py:144-155 | Ending entries by id takes exactly those off what is at work |
| `SessionStores.LoseEachLive` | agent/sesstate/subagents.py:50-71 | Losing teammates by name takes exactly those off what is at work |
| `SessionKept.Session.LetGoBeforeBirth` | agent/sesstate/__init__.py:73-79 | The five loops leave the specified state |
| `SessionKept.Session.ReadOn` | agent/sesstate/__init__.py:91-105 | A birth once known is kept, and every read lets go what stood before it |
| `SessionKept.Session.Finish` | agent/sesstate/tasks.py:85-103 | A task is closed, a watch leaves, the id of an agent ends the agent |
| `SessionKept.Session.Wake` | agent/sesstate/background.py:51-69 | A letter wakes the agent it names by id or the latest of the name, and says what it was |
| `SessionKept.Session.Unwake` | agent/sesstate/background.py:72-83 | The agent is put back as it was |
| `SessionKept.Session.OpenCall` | agent/sesstate/calls.py:76-85 | A call is kept last, and the oldest go over the limit |
| `SessionKept.Session.Prune` | agent/sesstate/subagents.py:74-84 | The loop prunes as specified |
| `AskedBook.MemoryIsTheFile` | agent/asked.py:114-231 | From any store, after any run of operations and failed writes, memory is what a book opened on the file holds |
| `AskedBook.WrittenIsLoaded` | agent/asked.py:114-134 | What is written is loaded again as it was, in every form the store may have |
| `AskedBook.ArrivalOrderKept` | agent/asked.py:146-152 | Questions of a conversation stand in the order they came, after any run |
| `AskedBook.AnsweredOnce` | agent/asked.py:171-202 | What is left is exactly the unsettled questions in order, other conversations are untouched, and the same again changes nothing |
| `AskedBook.NoQuestionVanishes` | agent/asked.py:160-231 | A question leaves exactly by a drop of its conversation, an event that settles it, or a sweep that finds it stale |
| `AskedBookKept.Book.Commit` | agent/asked.py:136-140 | A failed write puts back memory, a good one makes the file |
| `AskedBookKept.Book.Put` | agent/asked.py:146-152 | The question goes behind those standing, in memory and file, or in neither |
| `AskedBookKept.Book.Answered` | agent/asked.py:171-202 | Settled questions go from memory and file, or from neither; it says so exactly when one went |
| `AskedBookKept.Book.Sweep` | agent/asked.py:204-230 | Dead conversations and old questions go, and exactly the conversations that lost any are named |
| `AskedBookKept.Book.Drop` | agent/asked.py:160-169 | A conversation is forgotten and returned only when the file took it |
| `HomePairs.Pair` | agent/contours.py:78-98 | The two passes give each home its account or its own name as specified, and the first home under an account is the one it pairs with |
| `HomePairs.LookupFindsThePair` | agent/contours.py:244-250 | The first match under an account is the home it pairs with, and there is none when it pairs with none |
| `HomePairs.OneAccount` | agent/contours.py:78-98 | A home pairs with one account at most |
| `HomePairs.NamesakeWins` | agent/contours.py:52-55 | The home of an account is the first named after it; one named after the map pairs only where none is |
| `HomePairs.Namesakes` | agent/contours.py:82-87 | The first pass claims exactly the first home of each account name |
| `HomePairs.CodexHomeOf` | agent/contours.py:244-250 | The lookup returns the first home of the name, when its directory is there |

## Left out

- UsageTheorems.TwoPassesEqualOne: of a pass that neither starts at 0 nor rewinds it is asked that the clocks are kept, and that an answer before the offset keeps to one agent or the hours there be lower; without the second the condition on calls is not necessary (`UsageMixed.MixedAgentsAreRight`), and the exact condition for such answers is not stated.
- UsageTheorems.PassKeepsStoreIff: kept clocks are a premise, since two wrong clocks may still give equal waits; when they are kept is exact (`UsageClocks.ClocksRebuiltIff`).
- UsageLookback.LookIsExact: a fragment of a line at the head of the window that would parse by itself, and an error while reading it, are not modelled; a window that does not reach the start of the file is covered by `UsageClocks.ClocksRebuiltIff`.
- FeedPages.PageOfPieceIsPageOfFile: the conditions on what records refer to are sufficient, not necessary; the loop of `feed` that widens the piece is not modelled beyond its test.
- FeedPages.BoundedRefinesUnbounded: the condition on reach is sufficient, not necessary.
- FeedAfter.RunsStayWellFormed: asks that a thought is not drawn over a thought and that a row that ends a run is not redrawn as one that does not; `FeedSteady.FeedRunsAreWellFormed` derives it from what `TranscriptRows.AddressesAreUnique` and `TranscriptRows.OnlyPromptsAreDrawnAgain` say of the rows of records, though the two kinds of rows are not one type here.
- FeedFold.Feed.ReadAfter: known rows are values with a mark of what touched them, so identity of row objects is not modelled; a failed look-up in a row is a flag that stops the fold.
- SearchFound.TotalHoldsIff: assumes row addresses as the parser gives them: a new row has its own, and no letter comes again.
- SearchGoing.Found.Count: the words of a row come with their hits, the heap stands for its order, and letters are told apart by their fields rather than by a hash.
- CodexThreads.Runs: thread ids stand for their rank, and columns carried along unread are dropped.
- RepoWalk.WalkUnder: the entries of a directory are given in the order of their names, and the clock is a function of how many directories were read.
- AskedBook.MemoryIsTheFile: encoding a question and decoding it is taken for the identity.
- SessionState.RunHolds: a snapshot that ends a workflow, files that fill agents, and marks that change no store are not events; several teammates reported by one record are reported one by one.
- SessionKept.Session.Prune: the sort by end and the loop over it are taken as repeatedly removing the first earliest end.
- A window before a position (`before` in `agent/chat/window.py`), files and uploads hung on rows, and the times of rows.
- Session details, head hashes, record counts and the order of output lists in the usage parse; its tables are maps under the store's keys.
- Most branches of `rows_of`: shell output, alarms, service inserts, permits, briefs and sent files; `Piece.trim`, the stamp of a piece and the cache of pieces.
- Whitespace folding, the refusal of a question, and which texts a row is searched by.
- Decoding of JSON and of times: stamps come with their hour and milliseconds, and hours are ordered numbers.
- Sockets, threads, sqlite, git and the file system: a file is a sequence that grows, a write may fail.
