# MMAG: verified models

MMAG is a Mattermost agent. This project models the parts of it that keep state others rely on,
and the few real algorithms, and proves what they promise over all inputs and all runs.

- `Delegation*.dfy`, `RunStore.dfy`, `DispatchResult.dfy`: agents delegate to other agents. Any
  number of dispatchers, each with its own program counter, claim child runs, make parents wait,
  run the agent, record results and release parents, and may crash between any two steps.
  `DelegationOutcomes.dfy` says how every dispatch ends, `DelegationDispatch.dfy` what one does that
  nobody disturbs, `DelegationRevival.dfy` which runs can come to run again, `DelegationRecovery.dfy` when
  recovery beside the dispatchers is safe, `DelegationProgress.dfy` who releases a waiting parent.
- `MessageStore.dfy`, `MessageSearch.dfy`, `Fts.dfy`: the message log with its full-text index and
  summaries, changed statement by statement with failures and rollbacks, and searched.
- `MarkdownSplit.dfy`, `MarkdownTheorems.dfy`, `MarkdownPacking.dfy`, `MarkdownSize.dfy`, `Text.dfy`:
  long answers are cut into chunks.
- `Work.dfy`, `WorkHandlers.dfy`, `TaskDrafts.dfy`, `DraftKeys.dfy`: goals and tasks, and drafts
  that become tasks exactly once.
- `Delivery.dfy`: artifacts are uploaded once however often a delivery is retried.
- `CapabilityCalls.dfy`: durable capability calls that can be replayed.
- `ScopeId.dfy`, `Percent.dfy`, `PercentForms.dfy`: scope ids, printed and parsed over UTF-8
  (section 3 of RFC 3629) and percent-encoding (sections 2.1 and 2.3 of RFC 3986).
- `Routing.dfy`, `CapabilityPolicy.dfy`, `Glob.dfy`: which agent answers, and with which tools.
- `MemberDirectory.dfy`: the paged directory of a channel.

Objects that change are classes whose methods are proved against functions or relations on values;
what is promised about whole runs is proved of these. What a function on values means is stated beside
it on the fields, places or characters of its result. Failures are parameters: each names the
statement, upload or call that fails. Clocks, hashes, fresh ids, the text engine of the database
and the answers of the Mattermost server are parameters too.

Where code and documentation part, the model follows the code. Findings, each stated below, with
the exact condition where one is stated:

- a chunk can be up to four characters longer than the configured size, exactly if a piece of the
  text opens a fence where its closing marker no longer fits;
- recovering a child run beside live dispatchers can enter its agent twice, exactly if one of them
  stands between its claim of the child and the first wait for it, and the parent runs or can come
  to run again (approvals aside);
- a waiting parent is never released again once its dispatcher has crashed, or once the child it
  runs is ended, recovered or made to wait by somebody else; a child that itself delegates
  strands its parent in this way;
- a search whose words hold quotes does not look for those words, and one with a NUL character is
  refused by the index;
- the kinds PROJECT and TASK do not survive printing and parsing of a scope id;
- the selected intent keeps the case of the request;
- a capability whose registered name holds a wildcard can change the projection: exactly if a
  wildcard of a selected name matches another registered name, or no wildcard matches the name
  that holds one;
- uploads repeat when no outbox row exists;
- an execution key is unique across scopes, although it is looked up by scope: once used, a tenant can
  never use it in another scope;
- binding a run again can part it from its calls, exactly if it has calls and changes its identity;
- a replay would report another status than the first caller got if a runtime reported one the
  lifecycle does not know; the runtimes of the repository report only the three it knows
  (`src/mmag/runtimes/base.py:125-128`).

## Model

| member | source | states |
|---|---|---|
| `DelegationTheorems.AgentRunStartsAtMostOnce` | src/mmag/agent_system/dispatcher.py:144-208 | In every reachable state of any number of dispatchers, with crashes, replays, and recovery anywhere of any run but an exposed child whose parent can come to run again, `agent.run` has been entered at most once for each child run |
| `DelegationTheorems.LosersChangeNothing` | src/mmag/agent_system/dispatcher.py:147-183 | A dispatcher whose claim has not succeeded touches no run but the child it claims; if the claim fails, no run changes at all and the dispatcher is over |
| `DelegationTheorems.ParentsHaveOneHolder` | src/mmag/agent_system/dispatcher.py:168-228 | A parent in WAITING_CHILD is held by exactly one child; while it is RUNNING every child that ever made it wait has ended |
| `DelegationTheorems.EndedRunsNeverChange` | src/mmag/agent_system/dispatcher.py:248-287 | A child run that has ended keeps state, version and result for the rest of the run |
| `DelegationTheorems.ReplayReturnsFirstReply` | src/mmag/agent_system/dispatcher.py:147-158 | A later dispatch with the same key changes no run and returns the reply of the first caller with the status of the stored state; the replies are equal if and only if the reported status is one of the three the lifecycle knows |
| `DelegationTheorems.RepeatedCallMeets` | src/mmag/agent_system/dispatcher.py:144-158 | In every run, a call with a key in use changes no run: another principal is a conflict, a queued child may be claimed, a running one is in progress, a failed or cancelled one has ended, and any other is answered with the reply recorded for it and the name of its state |
| `DelegationOutcomes.DispatchEnds` | src/mmag/agent_system/dispatcher.py:230-307 | In every run, when a dispatch past its wait ends by its own step: if nobody else has moved the run this step is about, the reply or the agent's error is handed on, the child is SUCCEEDED, EXHAUSTED or FAILED accordingly and the parent is RUNNING, or the child waits for an approval; if somebody has, the conflict is raised and nothing changes |
| `DelegationOutcomes.RefusalEnds` | src/mmag/agent_system/dispatcher.py:168-191 | In every run, a dispatcher that cannot make its parent wait raises the reason, with its child FAILED and the agent not entered, unless somebody else has moved the child since its claim, which changes no run |
| `DelegationDispatch.UndisturbedDispatch` | src/mmag/agent_system/dispatcher.py:89-307 | From every reachable state in which a running run delegates for the first time with a key, steps lead to the state, given in full, in which the agent has been entered once, the report tells what the agent returned and can be read back from the child, which has ended as reported, successfully unless "exhausted" is stated, and the parent runs again; or child and parent wait for the approval |
| `DelegationDispatch.FailedDispatch` | src/mmag/agent_system/dispatcher.py:208-229 | The same when the agent raises: the child has failed, the parent runs again, nothing else changes |
| `DelegationDispatch.RefusedDispatch` | src/mmag/agent_system/dispatcher.py:168-191 | The same when the parent is not running: the child fails, the agent is not entered, the parent is left alone |
| `DelegationRecovery.RecoveryIsSafeIff` | src/mmag/control_plane/lifecycle.py:115-167 | In every reachable state, recovering a running child leaves it at one start, whatever follows, if and only if no dispatcher stands between its claim of the child and the first wait for it, or the parent neither runs nor can come to run again |
| `DelegationRevival.RunsAgainIff` | src/mmag/agent_system/dispatcher.py:230-307 | In every reachable state a run runs or can be brought to, if and only if it is running or queued, or is not delegated and waits for an approval, or waits for a child and a live dispatcher is about to release it, or holds a valid claim of the child and is not about to make it wait for an approval |
| `DelegationRecovery.ExposedStartsTwice` | src/mmag/control_plane/lifecycle.py:115-167 | If such a dispatcher exists and the parent runs, is queued, is approved or is released by another dispatcher, the recovery can be continued to a second entry into `agent.run`: the repeated wait command is taken for its own replay |
| `DelegationRecovery.ExposedStateIsReached` | src/mmag/agent_system/dispatcher.py:160-181 | Four steps lead from the empty store to a state in which a child is so exposed |
| `DelegationProgress.WaitingParentIsServed` | src/mmag/agent_system/dispatcher.py:168-299 | In every run that leaves a child and its dispatcher undisturbed, a parent in WAITING_CHILD is held by a child that waits for an approval or that a live dispatcher with a valid claim serves |
| `DelegationProgress.DisturbanceStrands` | src/mmag/agent_system/dispatcher.py:210-299 | A crash of the dispatcher that would release a waiting parent, or any change of its child by others while the agent runs, leaves the parent waiting, or ended from outside, whatever follows: it never runs again |
| `DelegationProgress.CrashStrandsParent` | src/mmag/agent_system/dispatcher.py:248-299 | A run exists in which a crash after the end of the child and before the release leaves the parent waiting for an ended child for good |
| `DispatchResult.ReplayReadsBackFirstReport` | src/mmag/agent_system/dispatcher.py:363-389 | Reading a stored envelope back yields result, artifact refs, provenance and interruptions of the first report, only the status coming from the state |
| `DispatchResult.FirstReportTells` | src/mmag/agent_system/dispatcher.py:230-246 | The first report says what the agent stated: a status that is missing, empty or "completed" is success, any other is reported as it is; result and provenance, refs and interruptions are those of the output, in order |
| `DispatchResult.EnvelopeHolds` | src/mmag/agent_system/dispatcher.py:233-242 | The stored envelope holds schema version, status, result, refs, provenance and interruptions of the first report under their names |
| `DispatchResult.RefsArePicked` | src/mmag/agent_system/dispatcher.py:404-411 | Every well-formed artifact ref is reported, once for each artifact that has it, in their order, and nothing else |
| `DispatchResult.CollectRefs` | src/mmag/agent_system/dispatcher.py:404-411 | The loop collects exactly these refs |
| `DispatchResult.DictsArePicked` | src/mmag/agent_system/dispatcher.py:391-394 | The interruptions reported are the dictionaries of the list, each once, in order, and no other item |
| `DispatchResult.RefForm` | src/mmag/agent_system/dispatcher.py:404-411 | A ref is well-formed exactly if all of it is `artifact://` and 32 lower-case hexadecimal digits |
| `DelegationClaims.RunKeepsInv` | src/mmag/agent_system/dispatcher.py:89-307 | The protocol invariant (versions, holders, journal, program counters, first claimants) holds in every reachable state |
| `DelegationClaims.StepKeepsInv` | src/mmag/agent_system/dispatcher.py:89-307 | Every enabled step of a dispatcher, of other components, of a crash or of a recovery keeps the invariant |
| `DelegationClaims.StepKeepsEntrants` | src/mmag/agent_system/dispatcher.py:160-181 | Every enabled step keeps this: as long as a child has not made its parent wait and the parent can run, at most one dispatcher has claimed it, and it has not been queued again |
| `DelegationClaims.StepKeepsDead` | src/mmag/agent_system/dispatcher.py:168-299 | No step, not even an unsafe recovery, makes a run that cannot come to run again one that can |
| `DelegationSteps.ClaimStep` | src/mmag/agent_system/dispatcher.py:160-167 | A versioned claim of a queued child keeps the invariant but for first claimants, and so does a failed one |
| `DelegationSteps.WaitStep` | src/mmag/agent_system/dispatcher.py:168-193 | Making the parent wait, or failing the child when the parent is not running, keeps the same, given that there is one first claimant at most |
| `DelegationSteps.StartStep` | src/mmag/agent_system/dispatcher.py:195-208 | Entering `agent.run` keeps the same, in particular that no earlier entry exists |
| `DelegationSteps.RecordStep` | src/mmag/agent_system/dispatcher.py:230-265 | Recording the outcome of the child keeps the same for all statuses |
| `DelegationSteps.ReleaseStep` | src/mmag/agent_system/dispatcher.py:289-299 | Queueing the parent again keeps the same, the child having ended |
| `DelegationSteps.ReconcileStep` | src/mmag/control_plane/lifecycle.py:151-167 | Recovery of any running run beside any dispatchers keeps the same |
| `DelegationSteps.CreationKeepsStoreOk` | src/mmag/control_plane/runs.py:85-127 | Creating or finding a child run leaves one run for each execution key, with its parent stored |
| `DelegationInvariant.WaitKeepsJournal` | src/mmag/agent_system/dispatcher.py:174-181 | The move of a parent into WAITING_CHILD keeps one holder for each parent |
| `DelegationInvariant.ReleaseKeepsJournal` | src/mmag/agent_system/dispatcher.py:292-299 | The move out of WAITING_CHILD ends the hold and keeps the rest |
| `RunStore.LifecycleTells` | src/mmag/control_plane/lifecycle.py:40-53 | A run starts only from the queue, is queued again only out of a wait, ends in success or exhaustion and starts to wait only while running, fails only while running or waiting, and can be cancelled exactly until it has ended |
| `Delegation.OutsideMovesTell` | src/mmag/control_plane/lifecycle.py:40-53 | Other components may cancel any run that has not ended and fail any that runs or waits, delegated or not; they start, finish and queue again only runs that are not delegated, and make none wait for a child |
| `RunStore.TransitionTells` | src/mmag/control_plane/lifecycle.py:97-150 | A transition is made if and only if its command is new, the run is stored with the expected version and may go from its state to the new one; then state, version, envelope and journal of this run change as stated and nothing else does; a repeated command changes nothing, and each error has its exact case |
| `RunStore.CreationTells` | src/mmag/control_plane/runs.py:85-127 | A key in use finds its run, for the same principal only; otherwise a queued run is added, with its key, if the id is free and the parent acts for that principal; each error has its exact case |
| `MessageStore.Memory.LogMessage` | src/mmag/memory.py:43-119 | A message is inserted if and only if id and text are not empty, the text has at most 50000 characters, the id is new in the whole table and no statement fails; then log, map and index gain exactly one row each, the log row holding the first 10000 characters of the text, all if there are no more, and the scope, author, time, type and root of the post; otherwise nothing changes but that a rollback loses summaries not committed before |
| `MessageStore.Memory.UpdateMessage` | src/mmag/memory.py:121-152 | An edit succeeds if and only if the text is storable, the message owned and no statement fails; then its text becomes the first 10000 characters of the edit, its index row follows, and no other column or row changes; otherwise nothing but for such a rollback; a failing first query raises |
| `MessageStore.Memory.DeleteMessage` | src/mmag/memory.py:154-190 | A deletion succeeds if and only if the message is owned and no statement fails; then its three rows go and the summaries of its channel become stale, otherwise nothing changes but for such a rollback |
| `MessageStore.Memory.SaveConversationSegment` | src/mmag/memory.py:846-866 | A summary is appended as active, started five minutes ago; if the insertion fails nothing changes, and if the commit fails the summary stays uncommitted, for later calls to commit or to roll back |
| `MessageStore.Memory.LatestSegment` | src/mmag/repositories.py:200-207 | The summary chosen is an active one of the channel and no other active one started later; none is chosen only if there is none |
| `MessageStore.Memory.RecentSummary` | src/mmag/repositories.py:200-207 | The text of the summary chosen, or nothing |
| `MessageStore.Connection.NewRow` | src/mmag/memory.py:91-96 | The row number given to a new index row is free |
| `MessageStore.InsertionKeepsAgreement` | src/mmag/memory.py:67-105 | Adding a message with its index row keeps map, index and log in one-to-one agreement |
| `MessageStore.DeletionStatements` | src/mmag/memory.py:166-186 | The four statements of a deletion remove exactly one row from each table |
| `MessageStore.RunKeepsAgreement` | src/mmag/memory.py:43-190 | After any run of logs, edits, deletions and failures the map is a bijection between index rows and logged messages, and each index row holds the tokenized current text |
| `MessageStore.SegmentWasSaved` | src/mmag/memory.py:846-866 | Every stored summary was saved by an earlier step |
| `MessageStore.SummaryIsNewerThanDeletion` | src/mmag/memory.py:154-190 | In every run, failing commits and rollbacks included, a summary returned for a channel was saved after every earlier successful deletion of a message of that channel |
| `Fts.Tokenize` | src/mmag/infrastructure/sqlite/fts.py:8-19 | The loop computes the specified spreading of CJK characters |
| `Fts.TokenizingIsIdempotent` | src/mmag/infrastructure/sqlite/fts.py:8-19 | Tokenizing leaves no two CJK characters adjacent, changes nothing but white space, and is idempotent |
| `Fts.TokenizingInParts` | src/mmag/infrastructure/sqlite/fts.py:8-19 | A text in two parts is tokenized part by part, with a space between them exactly if a CJK character ends the first and another begins the second; a single character stays as it is |
| `Fts.WordsAreInk` | src/mmag/memory.py:283 | The words of a query, joined, are its visible characters, and none is empty |
| `Fts.WordsInParts` | src/mmag/memory.py:283 | White space separates the words of a query, and nothing else does |
| `Fts.QueryMeansItsWords` | src/mmag/memory.py:282-283 | The query string built from quoted words asks for exactly these words if and only if none of them holds a quote or a NUL character |
| `Fts.QuotesFuseWords` | src/mmag/memory.py:282-283 | A query whose two words hold quotes is read as one phrase |
| `MessageSearch.SearchFts` | src/mmag/memory.py:272-334 | For every query, the index search lists messages of a scan of the log with the query string and the same filters, none with a better rank left out, the ranks ascending, as many as the limit allows; a rejected or failing query falls back to the substring scan |
| `MessageSearch.Search` | src/mmag/memory.py:223-270 | Without a keyword only the filters apply, and the messages are listed by descending time, none newer than a listed one left out; with one the query string decides, by rank, or the substring if the engine rejects it or fails; if the query holds neither quote nor NUL character, it is its words that decide |
| `MessageSearch.SearchReflectsRun` | src/mmag/memory.py:43-334 | In every run of logs, edits, deletions and failures a result of the index search lists only messages whose post passes the filters, that were not deleted since, and of whose last wording the first 10000 characters match; and all of these unless the limit cuts the list off |
| `MessageSearch.SearchLike` | src/mmag/memory.py:336-378 | The fallback lists the messages that contain the query and pass the filters by descending time, none newer than a listed one left out, as many as the limit allows |
| `MessageSearch.ClauseList` | src/mmag/memory.py:285-308 | The clause list grows by exactly the conditions that are given |
| `MessageSearch.ClausesSay` | src/mmag/memory.py:285-308 | The joined clauses hold of a row if and only if it is in the namespace, passes the filters and the first condition |
| `MessageSearch.Top` | src/mmag/memory.py:310-324 | Ordering with a limit returns the best elements, none twice, best first, all of them for a negative limit |
| `MessageSearch.JoinIsScan` | src/mmag/memory.py:310-324 | The joined rows that match are the index rows of the messages a scan finds, whatever the query string |
| `MessageSearch.ScanMeans` | src/mmag/memory.py:282-324 | A scan for phrases finds exactly the messages in the namespace that pass the filters and in which each phrase stands somewhere, term after term, one phrase having terms |
| `MessageSearch.QueryScans` | src/mmag/memory.py:282-313 | A query without quotes is rejected if and only if it holds a NUL character; otherwise the messages it matches are those of a scan for all its words |
| `MessageSearch.RowsToIds` | src/mmag/memory.py:310-324 | Going from index rows to messages neither loses, repeats nor reorders results |
| `MessageSearch.QuotesOfQuery` | src/mmag/memory.py:282-283 | The words of a query hold a quote, or a NUL character, exactly when the query does |
| `MarkdownSplit.SplitLine` | src/mmag/application/render.py:206-219 | The cutting loop ends; every piece but the last is what stands before the last space at a place from half the limit up to the limit, or before the limit if no such space exists, less trailing white space, and the next piece begins after the white space behind the cut |
| `MarkdownSplit.CutsFit` | src/mmag/application/render.py:206-219 | No piece is longer than the limit or holds a line break |
| `MarkdownSplit.CutsKeepInk` | src/mmag/application/render.py:206-219 | The pieces carry exactly the visible characters of the line, in order |
| `MarkdownSplit.CutShrinks` | src/mmag/application/render.py:211-216 | Every cut makes the rest shorter, for any limit of at least one |
| `MarkdownSplit.Split` | src/mmag/application/render.py:170-203 | Both loops end and yield the specified chunks; a text that fits is returned as it is |
| `MarkdownSplit.PushLocals` | src/mmag/application/render.py:191-201 | One turn of the inner loop refines the step on the specified buffer |
| `MarkdownSplit.FlushLocals` | src/mmag/application/render.py:179-187 | The nested flush refines closing a chunk and reopening its fence |
| `MarkdownSplit.LayoutsAreOk` | src/mmag/application/render.py:170-203 | The chunks hold the pieces in order, each with paired fences and bounded length, and each closes the fence the next reopens |
| `MarkdownTheorems.ChunksAreBalancedAndShort` | src/mmag/application/render.py:170-203 | Every chunk has an even number of fence lines, at most `max_chars + 4` characters, and is not empty |
| `MarkdownTheorems.ChunksCarryTheText` | src/mmag/application/render.py:170-203 | The chunks spell out exactly the visible characters of the text in order; beside them they hold only a reopened and a closing fence marker, the one the repetition of the other |
| `MarkdownPacking.ChunksAreFull` | src/mmag/application/render.py:170-203 | A chunk ends only where the next piece has no room in it beside its closing marker |
| `MarkdownPacking.ClosingMarkersFit` | src/mmag/application/render.py:179-187 | A chunk that is closed is closed with the marker of the last fence among its lines |
| `MarkdownPacking.ChunksShowTheirLines` | src/mmag/application/render.py:179-187 | A chunk is its lines joined by line feeds, less white space at both ends and nothing else |
| `MarkdownSize.SizeIsKeptIff` | src/mmag/application/render.py:170-203 | The splitter keeps the configured size if and only if the text fits as it is, or no piece opens a fence in a chunk without room for the marker that closes it |
| `MarkdownSize.TooLongIff` | src/mmag/application/render.py:179-187 | A chunk is too long if and only if its last own line opened the fence it closes and leaves no room for the marker |
| `MarkdownSize.SizeIsKeptWithoutFences` | src/mmag/application/render.py:191-203 | A text none of whose pieces is a fence is always cut to size |
| `MarkdownSize.ChunkSizeIsExceeded` | src/mmag/application/render.py:191-203 | For every permitted chunk size the splitter returns for some text a chunk of exactly `max_chars + 4` characters |
| `MarkdownTheorems.LineFencesOfLayout` | src/mmag/application/render.py:185 | Stripping a chunk does not change its fence lines |
| `Text.SplitLinesKeepsInk` | src/mmag/application/render.py:189 | Splitting into lines loses no visible character |
| `Text.SplitLinesWithEnds` | src/mmag/application/render.py:189 | The lines with their line ends, put together again, are the text: no line holds a line break and every end is one, a carriage return with a line feed counting as one |
| `Text.StripEnds` | src/mmag/application/render.py:185 | Stripping takes white space off both ends and leaves none there |
| `WorkHandlers.Repositories.CreateTask` | src/mmag/repositories.py:245-284 | An existing task with the key in the scope is returned and nothing changes; otherwise one row is added; it fails exactly without a scope, with a taken id, or with a key that another scope uses; with a goal of the scope and a permitted key it is a step of a run |
| `WorkHandlers.Repositories.CreateGoal` | src/mmag/repositories.py:384-430 | The same for goals, of any status and times; with a valid status and ordered times it is a step of a run |
| `WorkHandlers.Repositories.UpdateTask` | src/mmag/repositories.py:327-351 | Exactly the given fields of a task of the scope change, whatever they are; with a goal of the scope this is a step of a run |
| `WorkHandlers.Repositories.UpdateGoal` | src/mmag/repositories.py:468-502 | Exactly the given fields of a goal of the scope change, whatever they are; if they keep the lifecycle this is a step of a run |
| `WorkHandlers.Repositories.TaskByKey` | src/mmag/repositories.py:294-300 | The look-up by execution key finds a task of the scope with that key, or there is none |
| `WorkHandlers.CreateTask` | src/mmag/capabilities/tasks.py:109-153 | The call succeeds if and only if its arguments, access, owner and goal are in order and the row can be created; then the task has the title, description, kind, status, owner, due time, priority, goal, key and place given, less outer white space where the handler strips it, and its creator; otherwise nothing changes, and the first check that fails gives the reason; unless it misuses a key of a draft it is a step of a run |
| `WorkHandlers.UpdateTask` | src/mmag/capabilities/tasks.py:244-289 | The same for updates: each field that is given has its new value, every other field and row its old one; always a step of a run |
| `WorkHandlers.CreateGoal` | src/mmag/capabilities/goals.py:79-131 | The same for goals: title, initial status, times, criteria and access are checked, and each field of the new goal is stated |
| `WorkHandlers.UpdateGoal` | src/mmag/capabilities/goals.py:150-203 | An update succeeds if and only if access is granted and the change fits the stored goal; then each field that is given has its new value and nothing else changes; it is a step of a run |
| `WorkHandlers.FittingChangeKeepsGoal` | src/mmag/capabilities/goals.py:178-188 | An accepted change moves the status by at most one permitted transition and keeps start and due in order |
| `WorkHandlers.GoalOverview` | src/mmag/capabilities/goals.py:205-240 | The counts are the numbers of listed tasks by status, and the ratio is one exactly when all of at least one are done |
| `WorkHandlers.CreatingAgainFindsTask` | src/mmag/repositories.py:251-254 | A second creation with the same key in the same scope returns the first task and stores nothing |
| `WorkHandlers.KeyBelongsToOneScope` | src/mmag/repositories.py:245-284 | Over any run, once a key is used, a later creation with it succeeds if and only if it asks for the same scope, and then finds the first task |
| `Work.ReachesKeeps` | src/mmag/repositories.py:245-502 | Whatever permitted writes lead from consistent tables leads to consistent ones, and every row changes only as it may |
| `Work.RunKeeps` | src/mmag/repositories.py:245-502 | In every run of handler calls from empty tables the tables are consistent at all times: keys unique, links within the scope, drafts and their tasks in agreement; and from any state to a later one rows change only as they may |
| `Work.GoalEndsAreFinal` | src/mmag/capabilities/goals.py:18-23 | Over any run completed and cancelled goals stay what they are, and an active goal never returns to draft |
| `Work.KeyNamesOneTask` | src/mmag/repositories.py:245-284 | Over any run an execution key names one task, then and later |
| `Work.NewTaskKeeps` | src/mmag/repositories.py:256-283 | Adding a task keeps keys unique, links within the scope, and drafts consistent |
| `Work.ChangedTaskKeeps` | src/mmag/repositories.py:327-351 | Changing a task keeps the same |
| `Work.ChangedGoalKeeps` | src/mmag/repositories.py:468-502 | Changing a goal along its lifecycle keeps the same |
| `TaskDrafts.Decide` | src/mmag/application/task_drafts.py:152-243 | Every outcome has its exact case: a draft that is unknown, another's or of another conversation, a decision made before, a refused access, a draft rejected, held or started meanwhile, a failing audit, and a call for an item that fails; otherwise the draft is rejected, or committed with one listed task for each item. The tasks stored by its calls are those of the items, field by field; whatever fails, rows only evolve as permitted, among the steps of other calls |
| `TaskDrafts.CommitItems` | src/mmag/application/task_drafts.py:209-213 | The loop calls for each item in order, up to the first call that fails, although other calls run in between; it fails exactly if one does, and otherwise lists for each item the task with its key |
| `TaskDrafts.CreateItemTask` | src/mmag/application/task_drafts.py:276-337 | The call for an item succeeds if and only if it is reached and completed, its title is not blank, access is granted, its assignee may be assigned, and its task is there or can be added; a task is added exactly if the handler accepts the call and it is not there, with the stripped content as title, the description, kind, status, priority, due time, assignee if he is a member, requester, channel and scope that item and draft give it |
| `TaskDrafts.ClaimCommit` | src/mmag/control_plane/task_drafts.py:120-140 | A draft is claimed by its owner unless it was rejected or another claims it |
| `TaskDrafts.CompleteDraft` | src/mmag/control_plane/task_drafts.py:142-154 | Only a claimed draft is completed, with the given tasks, whatever they are; a committed one is returned unchanged; with the tasks of its items this is a step of a run |
| `TaskDrafts.RejectDraft` | src/mmag/control_plane/task_drafts.py:156-174 | Only a draft nobody has claimed is rejected, by its owner |
| `TaskDrafts.StoreDraft` | src/mmag/control_plane/task_drafts.py:50-98 | A complete draft is stored as it is under its id if its run has none, a repeated creation finds the one of the run, and nothing is stored for a taken id |
| `TaskDrafts.DraftTasksAreFew` | src/mmag/application/task_drafts.py:191-227 | Whatever has failed, a draft of n items has at most n tasks, and none before it is claimed or after it is rejected |
| `TaskDrafts.CommittedDraftListsItsTasks` | src/mmag/application/task_drafts.py:214-227 | A committed draft lists every task it has, once, the i-th being the one with the key of item i |
| `TaskDrafts.CommitReusesEarlierTasks` | src/mmag/application/task_drafts.py:303-331 | Over any run a task made by a failed attempt is the one the commit records |
| `DraftKeys.DraftKeyInjective` | src/mmag/application/task_drafts.py:318 | Different drafts or items have different execution keys, whatever the draft ids are |
| `DraftKeys.DraftKeyTells` | src/mmag/application/task_drafts.py:318 | The execution key is `task-draft:`, the draft id, a colon and the decimal digits of the index, without leading zeros |
| `Delivery.MattermostDelivery.Deliver` | src/mmag/application/delivery.py:251-327 | One attempt, with its upload loop, does exactly what the recursive specification says to saved ids, uploads, posts and result |
| `Delivery.AttemptTells` | src/mmag/application/delivery.py:251-327 | One attempt uploads the artifacts that have no saved id, in order, up to the first that the server does not take, and saves the ids if it can; if none is missing it posts once, with the text and root of the message and one id for each artifact; every result has its exact case |
| `Delivery.MattermostDelivery.PostMessage` | src/mmag/application/delivery.py:292-309 | Posting is the last step of the specification: an update exactly with a post to update and no files, a new post otherwise |
| `Delivery.DeliverUntilSent` | src/mmag/control_plane/pipeline.py:343-460 | The retries of a stored message start from the ids saved last, although other deliveries run in between, and stop after a success or at the limit on attempts |
| `Delivery.RetriesAreAttempts` | src/mmag/control_plane/pipeline.py:404-450 | They are a sequence of attempts, no more than a positive limit, delivered exactly if one of them succeeds, and given up only at the limit |
| `Delivery.AttemptKeeps` | src/mmag/application/delivery.py:268-308 | One attempt keeps the saved ids uploads of the artifacts in order, only extends them, and posts one id for each artifact |
| `Delivery.AttemptsKeep` | src/mmag/application/delivery.py:251-308 | Over any sequence of attempts, other deliveries in between, the same holds, and with saved ids the uploads made for the message beyond saved and lost ones stay as many as they were, so they number at most the artifacts plus the lost ones |
| `Delivery.BoundNeedsSavedIds` | src/mmag/application/delivery.py:290-291 | That bound holds for all sequences of attempts and other deliveries if and only if ids are saved or no upload was outstanding |
| `CapabilityCalls.CapabilityCallStore.CreateOrGet` | src/mmag/control_plane/capability_calls.py:31-71 | A spec is accepted if and only if the call with its key, or else with its id, is the very same, or there is neither and its run agrees, and no statement it needs fails; an equal call changes nothing; a new one adds one call, as the spec says and in state REQUESTED, and one audit entry; any failure leaves the store as it was |
| `CapabilityCalls.CapabilityCallStore.Transition` | src/mmag/control_plane/capability_calls.py:215-238 | A state change needs the expected version and a permitted step; then the call is in the new state with the next version and the outcome given, and nothing else of it changes; a repeated command changes nothing, and each error has its exact case |
| `CapabilityCalls.RunKeeps` | src/mmag/control_plane/capability_calls.py:31-113 | Over any run call ids and execution keys are unique and every call agrees with its agent run |
| `CapabilityCalls.SpecFindsItsCall` | src/mmag/control_plane/capability_calls.py:36-42 | Once created, a call is what its spec meets at every later time, under whatever call id |
| `CapabilityCalls.OtherSpecIsRefusedIff` | src/mmag/control_plane/capability_calls.py:36-42 | A spec that shares key or id with a call but differs otherwise is refused at every later time, if and only if its key is not that of a third call that equals it |
| `CapabilityCalls.BindingKeepsAgreementIff` | src/mmag/control_plane/runs.py:141-194 | Binding a run to a snapshot keeps its calls in agreement if and only if it has none or keeps its identity |
| `CapabilityCalls.BindingTells` | src/mmag/control_plane/runs.py:141-194 | A binding changes the identity of its run and nothing else |
| `CapabilityCalls.BindingPartsCallFromRun` | src/mmag/control_plane/runs.py:180-191 | A run of operations, and a binding to another actor after it, part a call from its run |
| `Percent.Utf8RoundTrip` | src/mmag/control_plane/context.py:60-64 | Decoding UTF-8 undoes encoding, for all strings |
| `Percent.QuoteRoundTrip` | src/mmag/control_plane/context.py:112-116 | Percent-decoding undoes percent-encoding, for all strings |
| `Percent.QuotedIsPlain` | src/mmag/control_plane/context.py:60-64 | Encoded text holds only unreserved characters and percent signs |
| `PercentForms.CharIsCarried` | src/mmag/control_plane/context.py:60-64 | Each character is encoded in one to four bytes, the first telling their number, whose digits to base 64 give its code |
| `PercentForms.DecodesLongestStart` | src/mmag/control_plane/context.py:112-116 | Where no encoded character stands, decoding replaces the longest run of bytes that some character starts with, or else one byte, by one U+FFFD and goes on behind it |
| `PercentForms.QuoteInParts` | src/mmag/control_plane/context.py:60-64 | A text is percent-encoded character by character, each as the bytes that carry it |
| `PercentForms.QuoteKeepsIff` | src/mmag/control_plane/context.py:60-64 | Encoding leaves a text as it is if and only if all its characters are letters, digits, hyphens, periods, underscores or tildes of ASCII |
| `PercentForms.ByteEscapes` | src/mmag/control_plane/context.py:60-64 | Every other byte becomes a percent sign and two upper-case digits to base 16 |
| `PercentForms.UnquoteTells` | src/mmag/control_plane/context.py:112-116 | A text without percent sign is not changed by decoding; in any other each run of ASCII is read as UTF-8 after its escapes and all else stays |
| `PercentForms.UnquoteBytesTell` | src/mmag/control_plane/context.py:112-116 | A percent sign with two digits to base 16, of either case each, gives the byte they name |
| `ScopeId.SplitJoin` | src/mmag/control_plane/context.py:58-66 | Splitting at colons undoes joining, for parts without one |
| `ScopeId.ScopeRoundTrip` | src/mmag/control_plane/context.py:50-66 | Parsing a printed scope id gives back installation, tenant and resource, and also the kind if and only if it is personal or channel |
| `ScopeId.ParseTells` | src/mmag/control_plane/context.py:103-116 | A scope id is read if and only if it is `mattermost`, three texts and `usr` or `chn` before the last, joined by colons, and its parts are decoded |
| `ScopeId.ScopeIdForm` | src/mmag/control_plane/context.py:50-66 | A scope id is `mattermost`, installation, tenant, `usr` or `chn` and resource, encoded each and joined by colons |
| `ScopeId.ScopeIdInjective` | src/mmag/control_plane/context.py:50-66 | Equal scope ids name the same installation, tenant, resource and sort of scope |
| `ScopeId.ResolvedTells` | src/mmag/control_plane/context.py:68-100 | A post has a scope if and only if author and channel are given and the server knows the channel as one of its four kinds; a direct message belongs to its author, any other post to its channel |
| `ScopeId.ScopesPartitionPosts` | src/mmag/control_plane/context.py:68-100 | Two posts share a scope exactly if both are direct messages of one author or both are in one other channel, in one namespace |
| `ScopeId.GuardAdmitsExactly` | src/mmag/control_plane/context.py:127-166 | The guard admits an actor to the scope of a post exactly if namespace, channel and membership agree, and for a direct message the author too |
| `ScopeId.GuardTells` | src/mmag/control_plane/context.py:127-166 | For every scope id the guard admits the owner of a personal scope, to no channel or a direct one he is in, and to a channel scope the members of the channel, if the namespace is its own; whatever else is denied |
| `Routing.AgentRegistry.Register` | src/mmag/agent_system/core.py:99-111 | An agent is accepted exactly if no other has its name, no other is a default like it, and none has the same default, priority, intents, keywords, address requirement and scopes, in any order and letter case of intents and keywords |
| `Routing.Route` | src/mmag/agent_system/core.py:146-170 | The agent selected may serve the request and outranks every other that may; routing fails exactly if none may serve, or the best has no intent to fall back to; the number of agents that may serve is reported |
| `Routing.Max` | src/mmag/agent_system/core.py:152 | The loop finds the strict maximum of the scores |
| `Routing.LowerIffOutranks` | src/mmag/agent_system/core.py:228-245 | Scores are ordered as the agents are: one that is special, then preferred or requested, of higher priority, meeting the intent, with more keywords found, of the later name, outranks the other |
| `Routing.EligibleIffMayServe` | src/mmag/agent_system/core.py:200-226 | An agent is eligible if and only if it is healthy, the request grants what it needs, asks for nothing it lacks, pays for it and is in one of its scopes, and it is the agent requested, or, with none requested, intent, keywords or being the default lead to it with the address it may require |
| `Routing.LowerIsStrict` | src/mmag/agent_system/core.py:228-245 | Scores with different names are strictly ordered |
| `Routing.BestIsUnique` | src/mmag/agent_system/core.py:146-170 | The winner does not depend on the order of registration |
| `Routing.DefaultIsLastResort` | src/mmag/agent_system/core.py:216-245 | Without a requested agent the default wins only if nobody else is eligible |
| `Routing.IntentIsDeclaredIff` | src/mmag/agent_system/core.py:154-158 | The intent returned is one the agent declares, letter for letter, unless the request meets a declared one only in another case |
| `Routing.IntentKeepsRequestCase` | src/mmag/agent_system/core.py:154-158 | Such a request exists |
| `Glob.ListIsExactIff` | src/mmag/capabilities/registry.py:124-125 | Read as patterns the names of a list match exactly themselves, among all names, if and only if none of them has a wildcard |
| `Glob.MatchesAnyIff` | src/mmag/capabilities/registry.py:124-125 | A list matches its own names without wildcards and what its wildcards match, and nothing else |
| `Glob.LiteralMatchesItself` | src/mmag/capabilities/registry.py:124-125 | A name without wildcards matches exactly itself |
| `Glob.StarMatches` | src/mmag/capabilities/registry.py:124-125 | A star stands for any text, the empty one included |
| `Glob.QuestionMarkMatches` | src/mmag/capabilities/registry.py:124-125 | A question mark stands for one character |
| `Glob.ClassMatches` | src/mmag/capabilities/registry.py:124-125 | A class stands for one character that its body lists, or with an exclamation mark for one it does not list |
| `Glob.PlainMatches` | src/mmag/capabilities/registry.py:124-125 | Every character but the two wildcards stands for itself, an opening bracket too if no class begins there |
| `Glob.BodyLists` | src/mmag/capabilities/registry.py:124-125 | The body of a class lists characters and ranges, a range being made by a hyphen between two characters |
| `CapabilityPolicy.CapabilityRegistry.Register` | src/mmag/capabilities/registry.py:49-59 | A binding is added exactly if its name is new |
| `CapabilityPolicy.CapabilityRegistry.Unregister` | src/mmag/capabilities/registry.py:61-66 | Exactly the named binding goes, the others keep their order |
| `CapabilityPolicy.CapabilityRegistry.UnregisterPrefix` | src/mmag/capabilities/registry.py:68-73 | Exactly the bindings with the prefix go, the others keep their order, and their number is returned |
| `CapabilityPolicy.CapabilityRegistry.ResolveNames` | src/mmag/capabilities/registry.py:87-108 | The method resolves to the first places of the names that are registered or additional, match an allow and no deny pattern, in order, each once; it fails exactly if an allowed name without wildcards is neither |
| `CapabilityPolicy.ResolvedNames` | src/mmag/capabilities/registry.py:87-108 | Resolution yields, each once, exactly the candidates that match an allow and no deny pattern; it fails exactly if a plain allowed name is unknown |
| `CapabilityPolicy.CapabilityRegistry.GetSchemaList` | src/mmag/capabilities/registry.py:115-129 | The loop projects the bindings that a name given matches as a pattern, in order, or all of them if none is given |
| `CapabilityPolicy.ResolvedNamesAreInside` | src/mmag/agent_packages/runtime.py:460-474 | The package contract never rejects what was resolved from its own manifest |
| `CapabilityPolicy.InvocationTells` | src/mmag/skill_packages/resolver.py:151-172 | A skill is refused exactly if it requires a name that the agent or the deployment lacks; otherwise the declared names that both have are selected, in order |
| `CapabilityPolicy.ValidatedTells` | src/mmag/agent_packages/runtime.py:377-384 | A selection is valid if and only if it has all that the skill requires and nothing that the skill does not declare or the agent does not have; each error has its exact case |
| `CapabilityPolicy.InvocationIsValid` | src/mmag/skill_packages/resolver.py:151-187 | What the resolver selects for a skill always passes the validation of the package |
| `CapabilityPolicy.ProjectionIsExactIff` | src/mmag/capabilities/registry.py:115-129 | Names read as patterns project exactly the bindings of those names if and only if no wildcard of a listed name matches a registered name outside the list, and every registered name of the list has no wildcard or is matched by one |
| `CapabilityPolicy.AlwaysReadExactlyIff` | src/mmag/capabilities/registry.py:115-129 | That is so whatever is registered, if and only if no listed name has a wildcard |
| `CapabilityPolicy.RunToolsAreNarrow` | src/mmag/agent_packages/factory.py:104-135 | The tools of a run are the registered ones of its names if and only if the names are read exactly; then every tool is allowed, not denied, declared by the skill if one is selected, and the registered required ones are all there |
| `CapabilityPolicy.RunHasToolsIff` | src/mmag/agent_packages/factory.py:104-135 | A run has tools unless the selection of its skill is refused, and they are the registered bindings its names match, in order |
| `CapabilityPolicy.WildcardNameWidensProjection` | src/mmag/agent_packages/factory.py:104-135 | With a registered name that holds a wildcard a tool outside the manifest is projected |
| `MemberDirectory.ListChannelUsers` | src/mmag/client.py:163-202 | With an honest server a channel of fewer than 5000 members yields each record exactly once and a larger one is refused; no directory ever names anyone else, or anyone twice |
| `MemberDirectory.Collect` | src/mmag/client.py:184-198 | The inner loop adds exactly the records of an answer whose ids are not listed yet, in its order, and stops at one that was not asked for |
| `MemberDirectory.HonestServerExists` | src/mmag/client.py:163-202 | There is an honest server for every member list |

## Left out

- Delegation is a state machine on values, not a class: its steps interleave. A transition and the re-reading of the record after it are one step, and so are a look-up and an insertion within one database transaction.
- The SHA-256 execution key of a delegated run is modelled as the tuple it is computed from, so that equal keys mean equal tuples; the random part of a claim command is the identity of its dispatcher.
- Resuming a delegated child that waits for an approval, and the approval itself, are not modelled; other components may end such a child, and may approve a run that is not delegated.
- DelegationRevival.RunsAgainIff: does not model the resuming of a delegated child after an approval, which also releases its parent; a parent whose child waits for an approval counts as one that cannot run again.
- DelegationRecovery.RecoveryIsSafeIff: the same holds of the parent of the recovered child.
- The usage record in the stored envelope and all audit entries of delegation are not modelled.
- What the engine makes of a query string that does not consist of quoted strings only, the score that a search result carries, and the ranking formula stay abstract; the index is asked for terms of an abstract tokenizer.
- `Glob` reads a class whose leading ranges are all the wrong way round and whose next character is an exclamation mark as that character; the regular expression Python builds would negate the class.
- Names are matched as on a case-sensitive platform.
- Routing: the reason given with a selection, the policy of requests for the default agent, and how an address is recognized are not modelled.
- The cutting loop of the splitter needs a positive limit and the renderer asks for at least 1000 characters; the model covers every size from 17, below which a long line would never be used up.
- WorkHandlers.Repositories.CreateTask: does not model the second look-up after a violated constraint, because within one process it finds nothing new; two processes on one database are not modelled.
- Creation and update times of goals and tasks, task overviews and lists are not modelled; not-a-number times are not, since times are reals.
- TaskDrafts.Decide: does not model the texts of items beyond title, description, assignee and due time, nor the parsing of action items into drafts.
- Other calls are assumed not to use execution keys that start with `task-draft:` for anything but the items of a claimed draft.
- Delivery.DeliverUntilSent: does not model the delays between attempts; a manual retry, which counts from zero again, is a new call.
- CapabilityCalls: searching for waiting calls and restart recovery of running calls are not modelled; a patch carries results only, as at all its uses.
- Budget limits, prompts, provenance, personal skills and JSON Schema checks of agent packages are not modelled.
- User profiles, knowledge, URL analysis, personas, configuration and all user interface wording are not modelled.
