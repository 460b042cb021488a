# Models of the printer, the publisher, the build scheduler and four transformations

This project models the algorithmic cores of the repository and proves what they are for.

- **The pretty printer** (`nanofil/web/dterm.js`), modules `Printer*`. Documents are a graph of
  text, concatenation, flush, choice and "on one line". `PrinterLayouts` says, without any
  evaluation, which layouts a document offers and what a layout looks like when drawn. Against
  that reference the frontiers, the memo, the three tries of `plan`, `walk` and the constructors
  are proved: groups and chains offer exactly the layouts of their shapes, measures are real, the
  choice is optimal up to eps for each frontier passed, and every term of the page gets a plan,
  which draws all its text and keeps all its breaks.
- **The incremental publisher** (`experiment/analytics.py`), modules `Publisher*`. Any number of
  publishers take steps in any order and crash between any two; the dataset has content-addressed
  objects, manifests and a pointer that is swapped conditionally (If-Match and If-None-Match,
  sections 13.1.1 and 13.1.2 of RFC 9110). One invariant holds in every reachable state; from it
  follow chain integrity, one writer, recovery, that readers rebuild the scanned snapshot, and
  that the records of each log tile it up to its cursor; and from each of these states readers can
  be brought up to the source as it is.
- **The scheduler and controller** (`experiment/scheduling.py`, `controller.py`, `model.py`,
  `blockers.py`), modules `Scheduling*`, `Reachability`, `Candidates`, `Blockers`, `Controller*`:
  exclusive ownership and the thread budget over all admissions, shares as great as they may be,
  the closed form of candidate states and what it means over runs, agreement of the three
  reachability algorithms, the run invariant of the campaign controller, and the conservation of
  replan requests.
- **Transformations**: the log filter (`Capture`), timeline lanes (`Lanes`), address folding,
  label offsets and pushed values (`Folding`, `Assembly`), and reference rewriting (`Rewriting`).

Objects that the source updates in place are classes here (`Evaluator`, `Walker`, `Builder`,
`Checkpoint`, `LogPublisher`, `Scheduler`, `CandidateTable`, `Controller`, `BuildLogFilter`);
each method is proved against a function of its inputs or of the old state, and the lemmas are
about those functions. The publication protocol is a state machine, since its subject is the
interleaving of processes.

## What the code does not promise

- The printer's eps is 0.5, and frontiers are antichains exactly if eps is 0 or not narrower than
  the page (`AntichainIff`); the optimality results carry the slack. Dominance ignores what is free
  of the ribbon, so the first try can miss a layout that respects width and ribbon in every box. It
  never does, and its choice is then the best of those layouts, exactly if eps is 0 and neither the
  ribbon nor the least fraction of it in use is narrower than the page (`FirstTryIff`). `measure`
  caps the ribbon at the page and lists use half of it, so no page of positive width meets that.
- `Publisher.__init__` reads the pending record before `publish` takes the lock. With two
  processes on one checkpoint the record can be stale when it is finalised. `PublisherShared` adds
  that second process to the protocol: the finalisation is right exactly when no other generation
  is pending on disk (`FinalizeKeptIff`), a run reaches a state where readers do not see the
  newest snapshot (`StaleFinalizeBreaks`), and a row missed so is missed until it changes again
  (`MissedStays`). The protocol proper has one live process per checkpoint.
- In batched mode `admit` looks for overtaken replan requests with the list of builds it began
  with, not counting the batch it has just started; the plan it then asks for can be refused
  (`BatchOvertakesRequest`, a run). `AdmitPlan` says exactly when it is accepted.
- A progress record longer than 1 MiB is omitted or not depending on the chunks; what is written
  is independent of them exactly if a log holds no such record (`ChunkingIff`).
- Label offsets are tracked for any alignment but printed as powers of two; `AlignExact` says that
  they agree exactly for powers of two.

## Model

| member | source | states |
|---|---|---|
| `PrinterLayouts.BesideMeasures` | nanofil/web/dterm.js:287-293 | in the drawing of one box after another, line counts add, last lines add, and the widest line is the larger of the first box and the second box moved right |
| `PrinterLayouts.CostIsDrawn` | nanofil/web/dterm.js:262-265 | the measures computed from the parts of a layout are the line count, widest line, last line and badness of its drawing, line by line |
| `PrinterLayouts.OneLineCost` | nanofil/web/dterm.js:302 | a layout has height 0 exactly when it contains no break |
| `PrinterFrontier.SortSorts` | nanofil/web/dterm.js:270 | the sort orders candidates by height, badness, width and last line |
| `PrinterFrontier.ParetoCovers` | nanofil/web/dterm.js:269-274 | every candidate is dominated, within eps, by one that is kept |
| `PrinterFrontier.FrontierSound` | nanofil/web/dterm.js:280-304 | every candidate of a frontier carries the measures of its layout, which the document offers with every token, row and one-line box within W and, if it is one line and not a token, within R or the fraction asked for |
| `PrinterFrontier.RowWithin` | nanofil/web/dterm.js:287-299 | the same for every prefix of a concatenation |
| `PrinterFrontier.FrontierNear` | nanofil/web/dterm.js:266-304 | without a ribbon, every offered layout with room for k times eps has a candidate no taller, no worse and at most k times eps wider, k the passes through a frontier |
| `PrinterFrontier.RowNear` | nanofil/web/dterm.js:287-299 | the same for every prefix of a concatenation |
| `PrinterFrontier.SlackIsProduct` | nanofil/web/dterm.js:57 | the slack of k passes is k times eps |
| `PrinterPlan.TakeFrontier` | nanofil/web/dterm.js:269-274 | the loop over sorted candidates computes the frontier |
| `PrinterPlan.JoinAll` | nanofil/web/dterm.js:291-295 | the double loop gives exactly the valid pairs, in order |
| `PrinterPlan.FilterOneLiners` | nanofil/web/dterm.js:302 | exactly the one-line candidates within the fraction of the ribbon remain |
| `PrinterPlan.EmptyRowStaysEmpty` | nanofil/web/dterm.js:290 | stopping a concatenation at an empty frontier loses nothing |
| `PrinterPlan.Evaluator.Evaluate` | nanofil/web/dterm.js:275-279 | evaluation through the memo equals plain recursion on the shared graph, and works out each node at most once |
| `PrinterPlan.Evaluator.Step` | nanofil/web/dterm.js:281-304 | one node, worked out from the memoised frontiers of its parts, gets the frontier of plain recursion |
| `PrinterPlan.Evaluator.StepRow` | nanofil/web/dterm.js:287-299 | the loop over the parts of a concatenation gets the frontier of plain recursion |
| `PrinterPlan.Evaluator.JoinKid` | nanofil/web/dterm.js:289-297 | one round of that loop takes the frontier of a prefix to that of the next prefix |
| `PrinterWalk.Walker.Walk` | nanofil/web/dterm.js:308-319 | the recursive walk with its open break does what setting the layout token by token does, and returns where the pen stops |
| `PrinterWalk.SettingIsDrawing` | nanofil/web/dterm.js:306-319 | a layout set from a column starts each line where its drawing does and stops at start plus its last width |
| `PrinterWalk.SettingContiguous` | nanofil/web/dterm.js:309 | tokens are put where the pen is, and the pen ends where the walk says |
| `PrinterWalk.OpenReachesInk` | nanofil/web/dterm.js:316-317 | an open break follows the indenting steps up to the first ink of its line |
| `PrinterWalk.WalkRecordsInk` | nanofil/web/dterm.js:308-319 | the column recorded for a break is that of the first ink on the line it starts, steps included |
| `PrinterWalk.WalkRecordsOnlyBreaks` | nanofil/web/dterm.js:310-314 | the marks recorded are exactly those at which the layout breaks |
| `PrinterChoice.FirstBestIsLeast` | nanofil/web/dterm.js:327-332 | no candidate of the frontier beats the one picked |
| `PrinterChoice.PickBest` | nanofil/web/dterm.js:327-332 | the loop picks the first of the best |
| `PrinterChoice.Choose` | nanofil/web/dterm.js:322-326 | the tries in order: width and ribbon, width alone, neither; the first with a frontier decides |
| `PrinterChoice.Plan` | nanofil/web/dterm.js:321-338 | the breaks returned are those of the chosen layout walked from the start column, none without a layout |
| `PrinterChoice.PlanSound` | nanofil/web/dterm.js:321-338 | the choice is an offered layout, its numbers are those of its drawing, it respects W until the last try, and R on one line in the first |
| `PrinterChoice.PlanNearOptimal` | nanofil/web/dterm.js:321-338 | in a try whose ribbon is none, or no narrower than the page, the choice is lexicographically no worse in height and badness than any layout that leaves k times eps of room |
| `PrinterChoice.PlanOptimal` | nanofil/web/dterm.js:321-338 | with eps 0 it is the exact optimum of height, badness and width among the layouts within W |
| `PrinterChoice.PlanNarrowest` | nanofil/web/dterm.js:326-330 | once the width is let go no layout is narrower by more than k times eps; with eps 0 the choice is the optimum of width, height and badness |
| `PrinterChoice.PlanTotal` | nanofil/web/dterm.js:322-337 | a plan is found exactly when the document offers any layout |
| `PrinterChoice.WidthLetGoIff` | nanofil/web/dterm.js:322-326 | the width is let go only if no layout leaves k times eps of room, and whenever none stays within it; with eps 0 exactly then |
| `PrinterChoice.RibbonIdleSame` | nanofil/web/dterm.js:280-302 | a ribbon no narrower than the page changes no frontier, so optimality holds for the first try too |
| `PrinterExact.FrontierForward` | nanofil/web/dterm.js:269-304 | whatever eps is, the frontier of every document is in order and no member dominates a later one |
| `PrinterExact.FrontierNotAntichain` | nanofil/web/dterm.js:266-274 | if eps is positive and narrower than the page, some document has a frontier with a member that another one dominates |
| `PrinterExact.AntichainIff` | nanofil/web/dterm.js:266-304 | the frontiers of all documents are antichains exactly if eps is 0 or not narrower than the page |
| `PrinterExact.RibbonLosesBroken` | nanofil/web/dterm.js:266-280 | a ribbon narrower than the page leaves the first try without a layout of some document that offers one with every box allowed, since dominance ignores that a broken box is free of the ribbon |
| `PrinterExact.FractionLosesToken` | nanofil/web/dterm.js:266-302 | so does a fraction of the ribbon narrower than the page, since dominance ignores that a token is free of it |
| `PrinterExact.SlackLosesLayout` | nanofil/web/dterm.js:57 | so does any positive eps |
| `PrinterExact.FirstTryIff` | nanofil/web/dterm.js:321-338 | for any width, ribbon, eps and least fraction f: the first try finds a layout for every document that offers one with every box allowed, and its choice is best among those in height, badness and width, exactly if neither the ribbon nor f times it is narrower than the page and eps is 0 (or the page has no width) |
| `PrinterMarks.LayoutBreaks` | nanofil/web/dterm.js:308-319 | no layout breaks at a mark more often than the document can |
| `PrinterMarks.CapArgs` | nanofil/web/dterm.js:171-206 | in every alternative of a group each item breaks at its own mark at most once, besides the breaks inside its parts |
| `PrinterMarks.CapChain` | nanofil/web/dterm.js:233-260 | so does each operator of a chain, at one of the separators around it |
| `PrinterMarks.PageCap` | nanofil/web/dterm.js:131-170 | so no document breaks at a mark more often than the mark stands on the page |
| `PrinterMarks.BreaksOnce` | nanofil/web/dterm.js:306-319 | a layout of a page whose marks are distinct breaks at each at most once |
| `PrinterMarks.PlanKeepsBreaks` | nanofil/web/dterm.js:321-338 | so the plan of such a page keeps every break of its layout, at the column of the first ink after it, and no other |
| `PrinterText.FlatIffOneLine` | nanofil/web/dterm.js:183-187 | the syntactic test for a one-line layout is exact |
| `PrinterText.FlatHasPlan` | nanofil/web/dterm.js:321-338 | a document with a one-line layout always gets a plan |
| `PrinterText.LayoutDrawsText` | nanofil/web/dterm.js:150-260 | every layout of a document whose alternatives agree draws all its text, once and in order |
| `PrinterText.PlanDrawsText` | nanofil/web/dterm.js:321-338 | so does the plan |
| `PrinterBuilder.Builder.NewCat` | nanofil/web/dterm.js:90-94 | missing parts are dropped, one part stays itself, and the text is that of the parts |
| `PrinterBuilder.Builder.Stack` | nanofil/web/dterm.js:99 | items on lines of their own, each flushed at the mark of the next; their text in order |
| `PrinterBuilder.Builder.Lisp` | nanofil/web/dterm.js:177-180 | the layout with all arguments from the next line: the opening flushed at the first, a step, the stack, the closing, badness 2 |
| `PrinterBuilder.Builder.FillAlternatives` | nanofil/web/dterm.js:188-195 | the filled documents, aligned and hung with badness 1, after what they are added to, whose text and one-line layout they keep |
| `PrinterBuilder.Builder.StackAlternatives` | nanofil/web/dterm.js:196-204 | the stacked documents, aligned and hung with badness 1, for each number of items that may share the opening line, with the text and one-line layout kept |
| `PrinterBuilder.Builder.ArgsDoc` | nanofil/web/dterm.js:171-206 | a compound or list gets exactly the document of its shape, with distinct known ids, the text of its parts in every alternative, and a one-line layout if its parts have one |
| `PrinterBuilder.Builder.ChainLines` | nanofil/web/dterm.js:237-256 | which operators start, end or stay on a line, at which marks; row and lines hold the same text, in order |
| `PrinterBuilder.Builder.ChainDoc` | nanofil/web/dterm.js:233-260 | an operator chain gets exactly the document of its shape, likewise |
| `PrinterShapes.PlainOffers` | nanofil/web/dterm.js:262-265 | ids make no difference to the layouts a document offers |
| `PrinterOffers.CatLayouts` | nanofil/web/dterm.js:90-94 | a row offers exactly the layouts of its parts, one after the other |
| `PrinterOffers.StackOffers` | nanofil/web/dterm.js:99 | a stack offers exactly the layouts of its items, each broken at the mark of the next |
| `PrinterOffers.FillOffers` | nanofil/web/dterm.js:189-194 | filled items offer exactly the layouts of the items with some pattern of breaks, with or without a step |
| `PrinterOffers.StackChoicesOffer` | nanofil/web/dterm.js:197-203 | stacked layouts are offered for exactly the numbers of items up to the first group after the first |
| `PrinterOffers.ArgsOffer` | nanofil/web/dterm.js:181-206 | a group offers exactly: its parts in a row if it has fewer than two items, or else one line and filled or stacked layouts, aligned and hung; and, if it is deep, all from the next line |
| `PrinterOffers.ChainOffers` | nanofil/web/dterm.js:256-259 | a chain offers exactly: its parts in a row, on one line if it has lines to break; and its lines stacked, whatever the layout of each, with the badness after them |
| `PrinterChains.ChainStack` | nanofil/web/dterm.js:237-256 | a chain has one line more than breaks; the break of an operator is at the separator before it if arrows lead and there is one, else after it, and the operator is the first part of the next line or the last of its own; and the lines rejoined are the row |
| `PrinterChains.ChainOffersLines` | nanofil/web/dterm.js:233-260 | a chain offers exactly its row, on one line if it has a break, and those lines stacked |
| `PrinterGroups.GroupLayouts` | nanofil/web/dterm.js:171-206 | a group of two or more items offers exactly the layouts of its styles, spelled out in layouts of its parts: one line; filled or stacked, aligned or hung a step in and one worse; from the next line and two worse |
| `PrinterGroups.OneLineShare` | nanofil/web/dterm.js:184-187 | a list with two groups among its items is on one line only within half of the ribbon, and any other group wherever its row is allowed |
| `PrinterItems.ItemsOfChildren` | nanofil/web/dterm.js:161-170 | the items are the runs of children that no separator divides, each simple if all in it are, each after the last separator before it |
| `PrinterItems.MarginLayouts` | nanofil/web/dterm.js:131-143 | a term is set with its left margin before and its right margin after what stands between |
| `PrinterPage.DocOf` | nanofil/web/dterm.js:131-143 | the document of any term is exactly that of its shape, with distinct known ids, the text of the term in every alternative, and a layout on one line; a term that takes up place has one |
| `PrinterPage.GroupOf` | nanofil/web/dterm.js:150-207 | so has that of a compound, with its opening and closing, or of a list |
| `PrinterPage.ItemsOf` | nanofil/web/dterm.js:161-170 | the items of a box are exactly: one per child with a document and a separator before it, others joined to the item before; their text in order |
| `PrinterPage.ChainOf` | nanofil/web/dterm.js:233-260 | so has that of an operator chain |
| `PrinterPage.PlanTerm` | nanofil/web/dterm.js:321-338 | every term that takes up place gets a plan of its document, however narrow the page and the ribbon, and the plan draws all its text, once and in order |
| `PublisherData.SinceResumes` | experiment/analytics.py:414-435 | resuming after the last event seen yields exactly the rest of an append-only sequence |
| `PublisherData.ReplayLast` | experiment/analytics.py:874-877 | a key holds what the last record that mentions it says |
| `PublisherData.AppliedIndexes` | experiment/analytics.py:629-641 | applying what a scan staged makes the index stand for the scanned rows |
| `PublisherData.ReplayDelta` | experiment/analytics.py:443-490 | replaying a delta over the rows the index stands for yields the scanned rows |
| `PublisherSafety.InitialOk` | experiment/analytics.py:286-301 | fresh publishers and an empty dataset satisfy the invariant |
| `PublisherSafety.PrivateKeeps` | experiment/analytics.py:302-349 | constructing, scanning, resuming, crashing and a damaged spool leave the dataset and the invariant alone |
| `PublisherSafety.StageKeeps` | experiment/analytics.py:701-749 | the staging transaction keeps the invariant: the pending generation carries exactly what its scan found |
| `PublisherSafety.UploadKeeps` | experiment/analytics.py:757-767 | uploading one object, or refusing a missing or altered one, keeps the invariant |
| `PublisherSafety.ManifestKeeps` | experiment/analytics.py:768-771 | uploading the manifest keeps the invariant and stores no other generation |
| `PublisherSafety.SwapKeeps` | experiment/analytics.py:772-782 | the conditional swap keeps the invariant; it extends the chain only for its owner, or first writer |
| `PublisherSafety.FinalizeKeeps` | experiment/analytics.py:627-646 | finalising keeps the invariant |
| `PublisherSafety.StepKeeps` | experiment/analytics.py:650-784 | every step of every publisher, and every crash, keeps the invariant of all of them |
| `PublisherSafety.RunSafe` | experiment/analytics.py:276-784 | so it holds after every interleaving from a fresh start |
| `PublisherReader.LoadChain` | experiment/analytics.py:795-820 | returns stored manifests linked parent to child from a first generation, exactly the chain for a pinned pointer, and an error otherwise; it ends on any input |
| `PublisherReader.ChainIntegrity` | experiment/analytics.py:302-349 | after every run the latest pointer names the head of a linear chain of stored manifests at revisions 1, 2, 3 ..., every object of which is stored with its digest |
| `PublisherReader.PinnedChainStays` | experiment/analytics.py:140-150 | nothing stored is altered or removed, so a chain read in one state reads the same in every later one |
| `PublisherReader.OneWriter` | experiment/analytics.py:320-342 | once a publisher has published no other one ever can |
| `PublisherReader.SwapReplacesParent` | experiment/analytics.py:772-782 | a swap that succeeds replaces exactly the generation its stored manifest names as parent |
| `PublisherReader.ConstructorRefuses` | experiment/analytics.py:320-342 | in a reachable state the constructor refuses exactly a publisher without pending record facing a dataset that another one owns |
| `PublisherReader.OrderedReplayIsLatest` | experiment/analytics.py:874-877 | selecting the highest revision of each key and dropping deletions is replaying all records in order |
| `PublisherReader.ReadersSeeSnapshot` | experiment/analytics.py:823-877 | after every run the latest view over the whole chain is the snapshot the newest generation was scanned from, and its events are that snapshot's, each once |
| `PublisherReader.IndexAgrees` | experiment/analytics.py:627-645 | after finalising, the owner's index stands for exactly what readers see |
| `PublisherRecovery.RecoveryCompletes` | experiment/analytics.py:652-664 | from every reachable state the owner with a pending generation and its staged objects can crash, restart and publish it |
| `PublisherRecovery.Restart` | experiment/analytics.py:656-664 | after a crash the process finds its generation published, or starts uploading it |
| `PublisherProgress.PublishCompletes` | experiment/analytics.py:652-790 | from any reachable state, a publisher that owns the dataset or finds it empty and has nothing pending can be started anew and publish what a scan of its source finds: one generation more, scanned from its source, and nothing pending |
| `PublisherProgress.CatchesUp` | experiment/analytics.py:652-790 | so such a publisher, with or without a pending generation whose objects are still staged, can always bring the tables and events that readers see up to its source |
| `PublisherShared.StaleFinalizeBreaks` | experiment/analytics.py:319-349 | from a fresh start, two processes on one checkpoint reach a state in which the newest generation's view is not the snapshot it was scanned from |
| `PublisherShared.FinalizeKeptIff` | experiment/analytics.py:652-660 | finalising by a remembered generation that is the published head keeps the publisher in order exactly when no other generation is pending on disk |
| `PublisherShared.DroppedIsIndexed` | experiment/analytics.py:627-645 | otherwise the index stands for the snapshot of the generation that was dropped, and for none that readers see if that changed a row |
| `PublisherShared.MissedStays` | experiment/analytics.py:451-463 | a row so missed is in no later delta while it stays as it is: readers stay without it |
| `PublisherScan.ScanCarries` | experiment/analytics.py:443-490 | changed rows followed by tombstones carry exactly the difference of a table, one record per key |
| `PublisherScan.Checkpoint.ScanRows` | experiment/analytics.py:438-468 | the loop writes the changed rows in order, in parts within the row and byte limits that end only where the next row has no place, and notes them as changes |
| `PublisherScan.Checkpoint.ScanGone` | experiment/analytics.py:469-490 | every key that is gone gets one tombstone, in parts of at most a batch, and a noted deletion |
| `PublisherScan.Checkpoint.ScanTable` | experiment/analytics.py:436-490 | one table: the parts carry its difference from the index, and the changes now cover it |
| `PublisherScan.Checkpoint.ScanTables` | experiment/analytics.py:695-703 | all mutable tables: the parts carry the whole difference, and the changes are those the staging step commits |
| `PublisherScan.Checkpoint.Finalize` | experiment/analytics.py:629-641 | the loop over changes applies all of them to the index and empties the table |
| `PublisherRecords.TilesRaw` | experiment/analytics.py:578-599 | records that tile a stretch of a log concatenate to exactly its bytes |
| `PublisherRecords.TilesConcat` | experiment/analytics.py:602-605 | the records of successive generations tile the log together |
| `PublisherRecords.TilesGrow` | experiment/analytics.py:515-523 | appending to a log changes no record cut from it before |
| `PublisherLogs.Probe` | experiment/analytics.py:544-556 | the bounded reads find a newline within the limit if and only if there is one |
| `PublisherLogs.CutStream` | experiment/analytics.py:524-599 | new records tile from the cursor on, each up to its newline, as long as a record may be, or to where limit or budget ends; a record is a fragment exactly if it is not one whole line; bytes stay within the budget; of a live log only lines whose newline lies within the limit are cut; and it stops short only for lack of budget or of such a newline |
| `PublisherLogs.LineIsRecord` | experiment/analytics.py:524-536 | a whole line no longer than a record may be, of which a byte is cut and which fits the limit and the budget, is exactly one record and no fragment |
| `PublisherLogs.LimitOf` | experiment/analytics.py:519-523 | the greatest offset that may be read: of a live attempt's standard error no further than the controller has ingested it, else to the end |
| `PublisherLogs.WriteParts` | experiment/analytics.py:573-601 | the records of a stream are written in order, in parts within the row and byte limits that end only where the next record has no place |
| `PublisherLogs.LogPublisher.PublishStream` | experiment/analytics.py:510-605 | one stream: new records tile from its cursor on, in parts, and its cursor moves past them |
| `PublisherLogs.LogPublisher.PublishLogs` | experiment/analytics.py:496-608 | a scan takes every stream from its old cursor to its new one, every whole line that fits a record being one, exactly the bytes it reports, at most its budget, leaving nothing behind below it and cutting only committed lines of live logs; a log that shrank refuses it and rolls the cursors back |
| `PublisherStage.ScanEvents` | experiment/analytics.py:415-435 | the events after the last number staged are written in order, in parts that end only where the next event has no place, and the highest number is noted; a table that ends before it is refused |
| `PublisherStage.ScanStages` | experiment/analytics.py:701-704 | the files of a scan of tables, events and logs are what the staging step commits |
| `PublisherSafety.LogsStaged` | experiment/analytics.py:602-605 | staging what a scan found of the logs keeps finished and pending records tiling each log up to its cursor |
| `PublisherSafety.LogsUnchanged` | experiment/analytics.py:515-517 | so does every step that leaves checkpoint and chain alone while logs grow |
| `PublisherSafety.LogsFinished` | experiment/analytics.py:627-645 | so does finalising: the pending records are now in the chain |
| `PublisherReader.LogTiling` | experiment/analytics.py:496-608 | after every run, for every publisher and stream, the records in its finished generations and its pending one tile [0, cursor) and join up to exactly those bytes; a stream without a cursor has none |
| `PublisherReader.ReadersSeeLogs` | experiment/analytics.py:878-881 | after every run, what readers find of a log in the whole chain is exactly the beginning of the owner's log, at most up to its cursor |
| `SchedulingGraph.FindNeeded` | experiment/scheduling.py:71-96 | the worklist ends on every graph, cyclic ones too, and finds exactly what is needed |
| `SchedulingGraph.NeededIsClosed` | experiment/scheduling.py:72-78 | what is needed contains every needed target and every input whose required outputs are not all available |
| `SchedulingGraph.NeededIsLeast` | experiment/scheduling.py:72-78 | it is the least such set |
| `SchedulingGraph.NeededAntitone` | experiment/scheduling.py:130-136 | the more is available, the less is needed |
| `SchedulingGraph.NeededUnion` | experiment/scheduling.py:133-135 | a batch needs what its targets need, together |
| `SchedulingPolicy.BuildPolicy` | experiment/scheduling.py:9-52 | a build is granted limits exactly when a lane and threads, or a machine slot, are free; the limits are its share, as great as it may be |
| `SchedulingPolicy.Remaining` | experiment/scheduling.py:38-45 | what running builds leave of processors and jobs, unless one has none of its own |
| `SchedulingPolicy.SplitFits` | experiment/scheduling.py:50-52 | a share has at least one job and one core and never exceeds what remains |
| `SchedulingPolicy.SplitIsShare` | experiment/scheduling.py:50-51 | the share is the only one with no more than is wanted and remains, to which neither a job at the wanted cores nor a core per job can be added |
| `SchedulingPolicy.WantedIsFair` | experiment/scheduling.py:37 | the jobs wanted are one if rolling, all without look-ahead, and otherwise the most that all lanes can have of them, at least one |
| `SchedulingPolicy.RoomWhenIdle` | experiment/scheduling.py:35-50 | an idle machine always grants a place, and without look-ahead batched builds never overlap |
| `SchedulingPolicy.LanesKept` | experiment/scheduling.py:28-51 | one more local build keeps within the lanes; rolling, it has one job with all its cores, and all together keep within the jobs |
| `SchedulingPolicy.AdmittedFits` | experiment/scheduling.py:38-52 | with one more build of that share all local builds stay within the processors |
| `SchedulingPolicy.ThreadsWithout` | experiment/scheduling.py:40-45 | a build that ends gives back exactly its threads |
| `SchedulingPolicy.RoomShrinks` | experiment/controller.py:747-750 | a build that starts never makes room for another |
| `SchedulingAdmission.ExclusiveGrows` | experiment/scheduling.py:130-136 | a store that grows never makes two builds share a derivation or an output path |
| `SchedulingAdmission.ExclusiveAdmits` | experiment/controller.py:140-146 | a build that shares nothing with what is held, as far as is known to be available, shares nothing with any other build |
| `SchedulingAdmission.Scheduler.Reservations` | experiment/scheduling.py:115-136 | what it calls available is in the store, and it holds exactly what the running builds still need |
| `SchedulingAdmission.Scheduler.Intent` | experiment/controller.py:131-153 | one admission keeps ownership exclusive and threads within the processors; given an observation it admits exactly if there is capacity and the build is free, with its share as limits |
| `SchedulingAdmission.Scheduler.AdmitRolling` | experiment/controller.py:715-751 | rolling admission keeps both; no build it hands over lacks capacity or shares a dependency, and no candidate left over could still start |
| `SchedulingAdmission.Scheduler.AdmitOne` | experiment/controller.py:720-751 | one candidate: started, or without a place; those before it stay so |
| `SchedulingAdmission.Scheduler.AdmitBatched` | experiment/controller.py:715-757 | batched admission keeps both; a batch leaves out no free candidate unless it is full, and lacks neither capacity nor dependencies of its own |
| `SchedulingAdmission.Scheduler.Complete` | experiment/controller.py:616-619 | a build that ends keeps both for the others |
| `SchedulingAdmission.Scheduler.Realise` | experiment/scheduling.py:130-132 | outputs that appear in the store keep both |
| `SchedulingAdmission.Scheduler.Begin` | experiment/scheduling.py:120-129 | writing down what a build found at its start keeps both |
| `SchedulingAdmission.Scheduler.Reschedule` | experiment/controller.py:1047-1091 | a schedule change keeps both; it changes only the settings given, within their bounds, and rolling needs look-ahead |
| `Reachability.Mark` | experiment/blockers.py:102-109 | marking with a stack finds exactly what the roots reach |
| `Reachability.ReversedReaches` | experiment/model.py:258-263 | walking up from one node to another is walking down the other way |
| `Candidates.CandidateTable.Refresh` | experiment/model.py:248-281 | the four updates leave each candidate of the campaign in the state the facts imply, running, inconclusive and excluded ones as they are, and no other changed |
| `Candidates.UpdatesImply` | experiment/model.py:248-281 | the updates in order are the precedence: own exclusion, settled, available, own failure, inherited exclusion, blocked, queued |
| `Candidates.DependentsOf` | experiment/model.py:258-261 | the upward closure of some derivations is the set of those that depend on one |
| `Candidates.RefreshIdempotent` | experiment/model.py:248-281 | refreshing twice is refreshing once |
| `Candidates.BlockedMeans` | experiment/model.py:258-263 | a candidate ends blocked exactly if an in-scope failure lies below it and nothing of higher precedence applies |
| `Candidates.StatesKept` | experiment/model.py:253 | a running, inconclusive or excluded candidate whose own recipe is not excluded is returned as it is |
| `Candidates.FactsDecide` | experiment/model.py:248-281 | the state of every other planned candidate is decided by the facts, whatever it was |
| `Blockers.ExplainingChains` | experiment/model.py:227-245 | every failing or excluded dependency is found exactly once, with a shortest chain, on any graph |
| `Blockers.AllShortest` | experiment/model.py:229-244 | breadth first order makes every chain found a shortest one |
| `Blockers.TurnRound` | experiment/blockers.py:72-81 | the reversed edges are those of parents in the campaign's scope |
| `Blockers.Attribute` | experiment/blockers.py:111-129 | each failure's blocked packages and each package's failures mirror each other |
| `Blockers.Rank` | experiment/blockers.py:62-134 | exact scope and bad set; a package is listed under a failure exactly if it is blocked and depends on it, and under only exactly if no other failure lists it |
| `Blockers.SoleCause` | experiment/blockers.py:131-134 | a single cause is the only failure that lists a package |
| `Blockers.BadIffExplained` | experiment/blockers.py:102-109 | a derivation in scope is marked bad exactly when it has an explaining chain |
| `Blockers.OnlyMeansSole` | experiment/blockers.py:131-134 | a blocked package counts under only exactly if that is the one in-scope failure below it |
| `Controller.Controller.IntendBuild` | experiment/controller.py:114-210 | a build is intended exactly if no other campaign is active, look-ahead allows it, admission grants it and nothing below it is excluded; its candidates run; the run invariant is kept |
| `Controller.Controller.OutOfScope` | experiment/controller.py:819-830 | finds exactly whether an excluded derivation lies at or below a target |
| `Controller.Controller.Plan` | experiment/controller.py:212-268 | accepted exactly under the stated checks; the targets lose their old recipe and the attempt takes their queued requests in the same step; the run invariant is kept |
| `Controller.Controller.QueueReplan` | experiment/controller.py:270-336 | all candidates are accepted or none; new ones share one fresh request, queued ones keep theirs; the run invariant is kept |
| `Controller.Controller.SkipStale` | experiment/controller.py:769-792 | exactly the overtaken requests of the campaign leave the queue, each recorded as skipped |
| `Controller.Controller.EarliestRequest` | experiment/controller.py:793-806 | the candidates of the earliest request of the campaign, in order, as many as the quota allows; none exactly if none is queued |
| `Controller.Controller.AdmitPlan` | experiment/controller.py:758-817 | unless enough is queued a round plans the surviving request, or else unplanned candidates, up to the quota, and starts a plan exactly if no active build covers a recipe of the request; given the recipes of every active build, exactly if there is anything to plan |
| `Controller.Controller.MarkActive` | experiment/controller.py:587-594 | seeing an attempt at work keeps the run invariant |
| `Controller.Controller.FinishPlan` | experiment/controller.py:392-454 | every target takes what was observed of it, states are refreshed, aliases of builds run; the attempt finishes, once; the run invariant is kept |
| `Controller.Controller.FinishBuild` | experiment/controller.py:527-557 | every candidate takes the state that the outcome implies; the attempt finishes, once; the run invariant is kept |
| `Controller.Controller.RetryDerivation` | experiment/controller.py:1127-1147 | accepted exactly for a derivation of the campaign with nothing excluded at or below it; its failure is forgotten, states follow the remaining facts, and the run invariant is kept |
| `Controller.Controller.Retry` | experiment/controller.py:1176-1197 | all candidates are accepted or none; their failures are forgotten and they take the state the remaining facts imply; the run invariant is kept |
| `Controller.Controller.ExcludeKernels` | experiment/controller.py:871-909 | kernels leave, targets stopped only by their cancellation queue again, states follow the facts; the run invariant is kept |
| `Controller.ApplyPlan` | experiment/controller.py:396-444 | each target is queued with its recipe, inconclusive if the recipe already is, or an evaluation error; no other candidate changes |
| `Controller.NoFailureLoop` | experiment/controller.py:533-538 | after a build, unless its builder could not start, no candidate of a target is queued or running, and a known outcome is the one shown |
| `ControllerHistory.StaysInconclusive` | experiment/model.py:248-253 | over any run of transactions a candidate whose build had no outcome stays inconclusive, unless one builds, plans or retries it or excludes its recipe |
| `ControllerHistory.NoRebuild` | experiment/controller.py:533-538 | so a target whose build ended without an outcome is not built again by itself |
| `ControllerHistory.ReplanStates` | experiment/controller.py:44-51 | a planned candidate may be planned afresh exactly unless it is being built, waits or is there, or is out of scope for itself |
| `Controller.QuotaFills` | experiment/controller.py:761-767 | a round plans up to 32 candidates, and no more and no fewer than the look-ahead leaves room for |
| `Controller.BuiltSteps` | experiment/controller.py:527-555 | the updates that finish a build are one function of each candidate, and leave none of its targets running |
| `Controller.PlanConserves` | experiment/controller.py:154-203 | a plan moves the requests of its targets from the queue into its own record, and loses or doubles none |
| `Controller.QueueConserves` | experiment/controller.py:317-328 | queueing under a fresh request keeps every request in exactly one place |
| `Controller.SkipConserves` | experiment/controller.py:774-792 | so does skipping |
| `Controller.FinishKeeps` | experiment/controller.py:616-619 | an attempt that finishes was not finished before, and the others stay as they are |
| `Controller.RunningOutlives` | experiment/controller.py:527-531 | running candidates keep an active build when one ends that is not theirs |
| `Controller.SurvivorAccepted` | experiment/controller.py:212-268 | a request that survived the skip is accepted exactly if no active build covers its recipe |
| `Controller.RoundAccepts` | experiment/controller.py:774-817 | what a round chooses is accepted exactly when no active build covers it, and always if the round knew every active build |
| `Controller.QueuedInScope` | experiment/controller.py:819-830 | a candidate that a refresh leaves queued has nothing excluded at or below it, so the scope check lets its build through while the facts stay |
| `ControllerRounds.BatchOvertakesRequest` | experiment/controller.py:755-789 | a run from a fresh controller: a batch is started that covers a queued candidate; the round, looking at the builds it began with, chooses the request and its plan is refused |
| `Controller.RequeueBlocked` | experiment/controller.py:966-972 | queueing blocked candidates before a refresh makes no difference to it |
| `Capture.SplitJoins` | experiment/capture.py:34-36 | cutting into lines loses no byte |
| `Capture.SplitIsLines` | experiment/capture.py:34-36 | the cuts are exactly after the newlines |
| `Capture.SplitResumes` | experiment/capture.py:33-35 | cutting may stop anywhere and go on from the unfinished line |
| `Capture.FeedFaithful` | experiment/capture.py:32-47 | for every chunk, whatever is pending or already forwarded, only whole progress records are omitted, and all those that fit the limit |
| `Capture.ShortLinesExact` | experiment/capture.py:32-47 | if every progress record fits the limit, what remains is the log minus exactly those records |
| `Capture.Conservation` | experiment/capture.py:32-47 | bytes emitted, omitted and pending are the bytes fed |
| `Capture.BuildLogFilter.Keep` | experiment/capture.py:13-30 | a progress record is dropped and counted, any other line passes |
| `Capture.BuildLogFilter.Drain` | experiment/capture.py:36-40 | the completed lines pass in order except progress records, and the rest of an oversized line is never judged |
| `Capture.BuildLogFilter.Feed` | experiment/capture.py:32-47 | the exact output and state after a chunk; at most 1 MiB stays pending; counts conserve bytes |
| `Capture.BuildLogFilter.Finish` | experiment/capture.py:49-52 | the unfinished line is given back; everything written is the log without whole progress records |
| `Capture.FilterAll` | experiment/capture.py:6-52 | feeding chunks and finishing writes what the run over those chunks says |
| `Capture.FedFaithful` | experiment/capture.py:32-47 | after every sequence of chunks only whole progress records are omitted, and all those that fit the limit |
| `Capture.FitsIndependent` | experiment/capture.py:32-52 | if every progress record fits the limit, every chunking writes the log without them |
| `Capture.PartedWritten` | experiment/capture.py:41-46 | a log parted within a line that is too long is written with that line |
| `Capture.ChunkingIff` | experiment/capture.py:6-52 | what is written of a log is the same for every chunking if and only if every progress record in it fits the limit; it is then the log without them |
| `Lanes.FirstFree` | experiment/dashboard/views.py:352-355 | the first lane that is free, or a new one |
| `Lanes.Allocate` | experiment/dashboard/views.py:347-361 | no two rows that overlap share a lane, each takes the first free one, no assignment has fewer lanes, and for rows of positive length the lanes are as many as are open at the busiest time |
| `Lanes.CliqueNeedsLanes` | experiment/dashboard/views.py:352-361 | rows that all overlap need a lane each, in any assignment |
| `Lanes.LanesAreBusiest` | experiment/dashboard/views.py:347-361 | for rows of positive length, rows that all overlap are open at one time |
| `Folding.OperationsCompute` | experiments/libjpeg-turbo-sarcasm/nasm2gas.py:79-121 | each operation on combinations computes on what they stand for, under every valuation |
| `Folding.ComputeMeans` | experiments/libjpeg-turbo-sarcasm/nasm2gas.py:123-139 | an expression that evaluates is worth what its combination is worth |
| `Folding.ComputeTidy` | experiments/libjpeg-turbo-sarcasm/nasm2gas.py:89-95 | no name occurs twice in a combination |
| `Folding.ResolveValue` | experiments/libjpeg-turbo-sarcasm/nasm2gas.py:140-146 | replacing a difference of labels of one section by their distance keeps the value wherever labels lie as recorded |
| `Folding.EvaluateMeans` | experiments/libjpeg-turbo-sarcasm/nasm2gas.py:123-146 | evaluation with label differences keeps the value |
| `Folding.RegistersSum` | experiments/libjpeg-turbo-sarcasm/nasm2gas.py:157-162 | splitting three, five or nine times a register keeps the value |
| `Folding.FoldPreserves` | experiments/libjpeg-turbo-sarcasm/nasm2gas.py:149-181 | a printed address is worth what the operand's expression is worth, under every valuation of registers and labels |
| `Folding.FoldShape` | experiments/libjpeg-turbo-sarcasm/nasm2gas.py:163-181 | a printed address has at most two registers, in front, and does not start with a minus sign |
| `Folding.FoldPrintsIff` | experiments/libjpeg-turbo-sarcasm/nasm2gas.py:149-181 | an operand is printed exactly if it evaluates, has the registers of some addressing mode and no scaled symbol, and does not begin with a subtraction |
| `Folding.ClosedComputes` | experiments/libjpeg-turbo-sarcasm/nasm2gas.py:123-139 | an expression in numbers evaluates exactly if it has a meaning |
| `Folding.LinearComputes` | experiments/libjpeg-turbo-sarcasm/nasm2gas.py:79-121 | sums, differences and multiples of names always evaluate |
| `Folding.LabelDistance` | experiments/libjpeg-turbo-sarcasm/nasm2gas.py:140-146 | the distance of two data labels of a section is replaced by its number |
| `Folding.ImmediatePreserves` | experiments/libjpeg-turbo-sarcasm/nasm2gas.py:182-188 | an immediate is replaced only by the number it is worth |
| `Assembly.RoundUpFirst` | experiments/libjpeg-turbo-sarcasm/nasm2gas.py:280-282 | an aligned offset is the first multiple not before the offset |
| `Assembly.AlignExact` | experiments/libjpeg-turbo-sarcasm/nasm2gas.py:278-284 | the printed alignment places everything where it is tracked if and only if the alignment is a power of two |
| `Assembly.PrintedPow2` | experiments/libjpeg-turbo-sarcasm/nasm2gas.py:283 | what is printed is a power of two, and is the alignment exactly if that is one |
| `Assembly.PrintedBounds` | experiments/libjpeg-turbo-sarcasm/nasm2gas.py:283 | the printed alignment is the greatest power of two not above the one meant |
| `Assembly.LayOut` | experiments/libjpeg-turbo-sarcasm/nasm2gas.py:258-309 | if alignments are powers of two, the output is laid out as the input means, repetitions included; if none is negative, the offset recorded for each data label is its position there; labels of code are not recorded |
| `Assembly.StepSimulates` | experiments/libjpeg-turbo-sarcasm/nasm2gas.py:371-383 | one converted instruction does what the original does, saved values standing for the top of the stack |
| `Assembly.ConversionSimulates` | experiments/libjpeg-turbo-sarcasm/nasm2gas.py:371-383 | so does straight-line code: it fails where the original fails and otherwise ends in a state that stands for the original's |
| `Assembly.BalancedSame` | experiments/libjpeg-turbo-sarcasm/nasm2gas.py:371-383 | a function whose pushes are all popped ends with the same registers, memory and stack |
| `Assembly.ConversionLeaves` | experiments/libjpeg-turbo-sarcasm/nasm2gas.py:367-383 | a function keeps its opening; after it every push is a move to the next pseudo-register, and a pop stays only where nothing is saved |
| `Assembly.Annotate` | experiments/libjpeg-turbo-sarcasm/nasm2gas.py:345-383 | the loop with its depth counter produces the conversion |
| `Rewriting.SpellsTarget` | packages/optfil/mkprefix.py:54-74 | for every admissible prefix a replacement keeps the length and spells its target: nothing is cut off, and only slashes are added |
| `Rewriting.DistinctTargets` | packages/optfil/mkprefix.py:66-76 | different paths that are not merged are written differently, and never like a merged one |
| `Rewriting.MergedApart` | packages/optfil/mkprefix.py:71-73 | what is written for a merged path is never what is written for another |
| `Rewriting.AsManyValues` | packages/optfil/mkprefix.py:75 | counting names finds a collision exactly if there is one |
| `Rewriting.FillTargets` | packages/optfil/mkprefix.py:54-76 | the table is made exactly if the prefix fits, merged paths are in the closure and short names differ; each path then has its own target |
| `Rewriting.RefsApart` | packages/optfil/mkprefix.py:41 | no reference starts within another, so a left-to-right search finds all of them |
| `Rewriting.NoneInside` | packages/optfil/mkprefix.py:178-179 | no reference starts within a known path, so none is ever skipped |
| `Rewriting.Rewrite` | packages/optfil/mkprefix.py:170-190 | the length stays, every reference to a known path is replaced, every byte outside stays, and exactly the other references are reported |

## Left out

- Reading the page, measuring text, fitting tables and writing breaks in `dterm.js`; documents and widths are inputs, widths are nonnegative reals, and the bound on the number of nodes is not modelled.
- Classification of page elements (`simple`, `opOf`, `links`): `PrinterPage` takes a tree of elements already classified, in which a compound has an opening and operators and operands are not empty, as the source's markup has it.
- How good the first try's choice is where a narrower ribbon matters: `FirstTryIff` says that it need not be the best then, not by how much it falls short.
- PrinterWalk.Walker.Walk: a break still open is known by its mark, so two breaks at one mark share an entry; the source keeps the older entry object, which nothing reads any more.
- Parquet, Arrow, DuckDB, SQLite and S3 themselves: tables are maps, rows and objects are values, digests and entity tags are injective, generation ids are fresh, and a transaction or a conditional put is one step.
- A different source or destination for a checkpoint, the disk reserve and the source version check; of two processes on one checkpoint only what `PublisherShared` shows.
- Rows of the events table in the index, which nothing reads; logs are taken to be append-only, and one that is removed is no longer scanned.
- PublisherLogs.CutStream: decoded text, kind, activity and derivation of a record are not modelled.
- Garbage collection of the store and changes of the recipe graph while builds run.
- Features and systems of build machines: the derivations that some machine can build are a set given from outside.
- The total of max_jobs in batched mode is not bounded when lanes change; only jobs times cores is, and that is what is proved.
- Whether a recorded result is the one in `exit.json`: its existence and the unit's activity are checked in separate steps, so this is not claimed; results are inputs.
- Controller.Controller.AdmitPlan: the order of the unplanned candidates, by label, is an input.
- Controller.Controller.EarliestRequest: requests are ordered by number, which grows, rather than by the time they were queued at.
- Controller.Controller.IntendBuild: admission is an input here; it is the subject of the scheduling modules.
- Controller.Controller.FinishBuild: which derivations became available or failed, and the log texts that say so, are inputs.
- SchedulingAdmission.Scheduler.Intent: the scope check that comes first is modelled with the controller; a candidate passes it unless an exclusion was recorded after the last refresh (`QueuedInScope`), which preparing the graph can do.
- Controller.Controller.ExcludeKernels: which candidates are kernels, and the checks on the cancelled attempt, are inputs; the other reclassification, of toolchains, is a refresh, as `RequeueBlocked` shows.
- Rows, labels and order of the ranking page, the campaign's mode, hold and heartbeat, and cancellation.
- Lanes.Allocate: takes the rows in order of their start; the sort before it is the language's own.
- Text of operands, directives and instructions in `nasm2gas.py`: expressions, items and instructions are trees; bitwise operators on plain numbers, stack buffers and annotations are not modelled.
- Assembly.ConversionSimulates: instructions between a push and its pop do not read or move the stack pointer, and control flow is straight-line.
- Copying files, links, merging and conflicts in `mkprefix.py`; whether a merged path is a directory.
- Rewriting.FillTargets: paths of the closure have the form the store gives them; two paths with one hash would share a table entry, the later one.
- Nix, systemd, subprocesses, dashboards and web routes, classification imports, cache and port scripts.
