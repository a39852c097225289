# Verification of the robots gate, the execution protocol and the handoff controller

A Dafny model of three parts of the repository, with proofs about every input, every interleaving and every
pattern of crashes. `dafny verify dfyconfig.toml` checks it.

## What is modelled

**Robots policy.** `Text`, `Normalize`, `Matcher`, `RobotsFile` and `Verdict` model the policy engine (RFC 9309
sections 2.2.1 to 2.2.3; RFC 3986 sections 2.3 and 6.2.2); `Fetch` and `Gate` model the redirect loop, the access
results (RFC 9309 section 2.3.1) and the gate. Each loop of the code is a method proved against a specification: the
token list of a text, the recursive meaning of a wildcard, the fold of the line records, the first best rule.
`RobotsLines` and `RobotsMeaning` state what lines, groups and whole files mean without the functions that compute it;
`AllowLines` says when one more `Allow` line can only help. The network is an arbitrary oracle. A Python string is a
sequence of code points, lone surrogates included; octets are integers below 256.

**Execution jobs.** `Execution` is a state machine: the committed rows, and any number of sessions that each make one
database call at a time, with private writes, row locks and the constraints of the tables. The audit events, in commit
order, replay to the rows, identifiers included (`ExecutionInvariant`), which every call keeps (`ExecutionSafety`);
`ExecutionResults` draws the consequences. `ExecutionTenants` and `ExecutionNonInterference` show that sessions of
other tenants, interleaved in any way, change nothing for a tenant. `ExecutionService` has the repository and the
service as a class and methods, each proved to be exactly a session of the machine on whatever rows other sessions
commit between its calls; `ExecutionAlone` states what they are granted when nobody else commits. `Listing` models the
filtered pages with their latest runs. `Approvals` is the machine of proposals and racing deciders, `ApprovalsTenants`
its non-interference.

**Handoff controller.** `Handoff` is the crash machine: a durable status with sticky fields, a git repository with
HEAD, history, index and worktree, a remote branch and draft pull requests. One step is one effect of the controller,
which may fail, or a restart; a hard crash, an interruption of a task, a halt that records STOPPED, an operator's
confirmation, or somebody's edit of the repository while the controller is down or verifies. What holds over every
schedule: the checkpoint is true (`HandoffInvariant`), there is at most one commit (`HandoffRecovery`), a recovery
commits what was captured (`HandoffEdits`), and the work is published unless the controller gives it up
(`HandoffCompletion`). `HandoffGuards` states what a start and a recovery refuse, on every disk. `HandoffLosses` has
crashes alone, `HandoffFailures` the failing effects. `HandoffController` has the controller as a class whose methods
update status, git, remote and pull requests in place, each proved to be a run of those effects up to any crash.
`Review`, `Merge` and `Finalization` model the review loop, the merge and their composition, `Porcelain` the parser of
`git status`.

## What turned out not to hold

* A hard crash is not always recoverable. If a dirty path was staged and then put back to what HEAD has, `git add -A`
  removes it from the dirty paths; a crash before the commit then leaves a scope that every restart refuses, although the
  recorded content is intact. The documentation says that the content digest permits the index transition of staging
  (`docs/DEV-HANDOFF.md:158-161`); the code also compares the paths (`devtools/codex_handoff.py:639-644`), and the model
  follows the code. `SurvivesEveryCrash` gives the exact condition: every dirty path differs from HEAD in the worktree.
  `OneCrashLosesTheWork` says which work is published without a crash and lost to one crash, whatever follows;
  `StagedAndPutBack` is such a run, with one file put back and another one changed.
* The documentation lets a transient failure after commit, push, pull request or during the reviewer resume
  (`docs/DEV-HANDOFF.md:167-169`). Two such failures do not.
  * The record of the commit. A failure there rewrites the state COMMITTING, by which alone a restart looks for a commit
    that was made and not recorded (`UnrecordedCommitIsFound`, `FailureAfterCommitIsRefused`). Every change can be
    stranded so: committed, never published (`FailedRecordStrandsTheWork`). Of the failing effects before review it is
    the only one, but for a failure of a fresh run or a fix before it has begun to verify, whose state is not recoverable
    either (`OneFailureResumes`, `FailureBeforeVerificationStrandsTheWork`).
  * The start of a child behind the record LAUNCHING (`devtools/codex_handoff.py:738-763`), a state that is not
    recoverable (`devtools/codex_handoff.py:2243-2252`). `ReviewFailureResumes` gives the condition: without a halt, a
    failure in the review loop while no fixer runs or ends resumes if and only if it is not the start of a fixer, nor that
    of a reviewer of a fresh run that is not on record. Every fresh run that changes something can end so, with its pull
    request open and the task refused for ever (`FailedReviewerStrandsTheRun`). The end of a fixer has its own conditions
    (`FailedFixResumes`, `IdleFixIsRefused`), and so has a crash or an interruption in the loop: it does not resume
    between the reset of the checkpoint and the start of a fixer (`ReviewStopResumes`).
* The documentation reserves STOPPED for an idle controller (`docs/DEV-HANDOFF.md:223-229`). In watch mode the record is
  also written over preserved work: by an interruption during startup, while a live child is waited for, or while another
  stop is handled (`devtools/codex_handoff.py:2370-2376`, `2416-2419`). No start looks at STOPPED
  (`devtools/codex_handoff.py:1007-1024`), so recorded commits can be stranded (`HaltIsFinal`,
  `HaltStrandsCommittedWork`). Over every schedule of failures, crashes, interruptions and halts the work is published if
  and only if no halt, no stop behind an unrecorded commit and no failure before verification is recorded
  (`PublishedUnlessGivenUp`); behind the record of the commit, only a halt loses it (`RecordedWorkResumes`).
* Files that differ only in the order of equally strong rules get the same verdict, reason and agent, but may report a
  different rule (`TwoOrdersTwoReports`): the report is the same for every order if and only if all best rules that apply
  have the same normal text (`OrderMattersToReport`).
* One more `Allow` line can disallow a target: put between two agent lines, it ends the agent list and splits the group
  (`SplittingLineHurts`). Anywhere else it cannot (`AllowLineHelps`).

## Model

| member | source | states |
|---|---|---|
| `Text.DecodeEncode` | src/growth_os/robots/policy.py:189-194 | Strict UTF-8 decoding gives back every text without surrogates from its encoding. |
| `Normalize.NormalizeText` | src/growth_os/robots/policy.py:81-114 | The loop returns the rendering of the token list of the text, and fails exactly where a unit of the text has no tokens. |
| `Normalize.NormalizeUnit` | src/growth_os/robots/policy.py:86-112 | One pass of the loop takes the first unit of what remains, an escape or a character, with the text that renders its tokens, and fails exactly where that unit has none. |
| `Normalize.EncodeOctets` | src/growth_os/robots/policy.py:109-111 | The inner loop escapes every UTF-8 octet of a character, and its text renders its tokens. |
| `Normalize.TokensCanonical` | src/growth_os/robots/policy.py:81-114 | Every token is a wildcard, a raw ASCII character other than `%`, or 256 plus an octet that is not unreserved. |
| `Normalize.TokenizeRender` | src/growth_os/robots/policy.py:81-114 | The text of a canonical token list has exactly that token list. |
| `Normalize.NormalizeIdempotent` | src/growth_os/robots/policy.py:81-114 | Normalising a normalised text changes neither its text nor its tokens. |
| `Normalize.SameTextSameTokens` | src/growth_os/robots/policy.py:81-114 | Two texts have the same normal text exactly when they have the same tokens. |
| `Normalize.NormalizePreservesOctets` | src/growth_os/robots/policy.py:81-114 | Normalisation fails exactly on texts that stand for no octets, and keeps the octets a text stands for (RFC 3986 section 6.2.2). |
| `Normalize.NormalCharacters` | src/growth_os/robots/policy.py:81-114 | A normal text is ASCII, and a character of it that the text did not have is `%` or unreserved. |
| `Normalize.RenderWellEscaped` | src/growth_os/robots/policy.py:81-114 | Every `%` of a normal text begins a complete escape. |
| `Normalize.WellEscapedNormalizes` | src/growth_os/robots/policy.py:74-79 | A text that passes the escape check of a target normalises without error. |
| `RobotsLines.NormalizesMeans` | src/growth_os/robots/policy.py:81-114 | Exactly the texts without surrogates in which every `%` begins an escape normalise. |
| `RobotsLines.EscapeNormalizes` | src/growth_os/robots/policy.py:86-98 | An escape of a letter, digit, `-`, `.`, `_` or `~` becomes that character; every other one gets upper-case digits. |
| `RobotsLines.CharacterNormalizes` | src/growth_os/robots/policy.py:99-111 | Every other ASCII character stays, `*` as a wildcard in a pattern only; what is not ASCII becomes its octets. |
| `Matcher.MatchTokens` | src/growth_os/robots/policy.py:159-181 | The greedy loop with one backtrack point answers exactly whether the tokens, with a trailing wildcard if unanchored, match a wildcard-free target under the recursive definition; it terminates by star index, star target index and target index. |
| `Matcher.OlderStarSubsumed` | src/growth_os/robots/policy.py:170-173 | A match that backtracks to the older star can also be had from the newer star, so one backtrack point is enough. |
| `Matcher.NothingAfterEnd` | src/growth_os/robots/policy.py:164-181 | When the target is used up, no later alignment of the last star can match. |
| `Matcher.UnanchoredMatchesPrefix` | src/growth_os/robots/policy.py:160 | An unanchored rule matches a target exactly when its tokens match a prefix of it. |
| `RobotsFile.BuildGroups` | src/growth_os/robots/policy.py:133-156 | The line loop, which updates the current group in place, builds fresh groups whose contents are the fold of the line records: a dropped rule does not close the agent list. |
| `RobotsFile.SpecificityCounts` | src/growth_os/robots/policy.py:129 | Specificity is the number of tokens that are no wildcards. |
| `RobotsFile.AnchoredMeaning` | src/growth_os/robots/policy.py:117-130 | A rule is anchored exactly when its last token is a raw `$`; its other tokens are the pattern, and the specificity counts those that are no wildcards. |
| `RobotsFile.ParsedRuleCanonical` | src/growth_os/robots/policy.py:117-130 | A parsed rule is the parse of its own normalised text. |
| `RobotsFile.AddLinesWellFormed` | src/growth_os/robots/policy.py:133-156 | Whatever the lines, every group has product-token agents and canonical rules, and only the last group may have no rules. |
| `RobotsFile.ParseRenderParse` | src/growth_os/robots/policy.py:117-156 | Writing parsed groups back as lines and parsing again gives identical agents, rules, tokens, anchors and specificities. |
| `RobotsLines.LinesEnd` | src/growth_os/robots/policy.py:136 | Lines end at LF, CR or CR LF, and nowhere else. |
| `RobotsLines.LineMeans` | src/growth_os/robots/policy.py:137-155 | A line means its field in any ASCII case, with blanks around field and value and a comment behind them: an agent if the value is a product token, an Allow or Disallow if it is a rule; every other field means nothing. |
| `RobotsLines.NoFieldMeansNothing` | src/growth_os/robots/policy.py:137-139 | A line without a colon before its comment means nothing. |
| `RobotsLines.EveryLineHasParts` | src/growth_os/robots/policy.py:137-142 | Every other line has such parts. |
| `RobotsLines.RuleMeans` | src/growth_os/robots/policy.py:117-130 | A value is a rule exactly if it begins with `/`, has no blank, control character, DEL or surrogate, and every `%` begins an escape. |
| `RobotsLines.LeadingRulesAreDropped` | src/growth_os/robots/policy.py:150-151 | Rules before the first agent are dropped. |
| `RobotsLines.RulesFillTheGroup` | src/growth_os/robots/policy.py:152-154 | Rules go to the last group, in order. |
| `RobotsLines.AgentsJoinTheGroup` | src/growth_os/robots/policy.py:146-149 | Agents join the last group while it has no rule. |
| `RobotsLines.AgentOpensAGroup` | src/growth_os/robots/policy.py:146-149 | The first agent, and an agent behind a rule, opens a group. |
| `Verdict.SelectGroups` | src/growth_os/robots/policy.py:201-212 | The loops select the groups that name the agent and collect their rules in order. |
| `Verdict.CollectUnique` | src/growth_os/robots/policy.py:212 | The dictionary keeps every rule once, at its first position. |
| `Verdict.SelectWinner` | src/growth_os/robots/policy.py:213-220 | For every rule list and target the loop ends with the first of the best rules that apply, or none. |
| `Verdict.EvaluateRobots` | src/growth_os/robots/policy.py:184-228 | The evaluation, through all its loops and error cases, is the verdict that `RobotsMeaning.EvaluationMeans` states on the groups of the file. |
| `RobotsMeaning.EvaluationMeans` | src/growth_os/robots/policy.py:184-228 | For every file and target: the errors in their order; the robots URI is allowed; otherwise the rules that count are those of exactly the groups that list the product in any ASCII case, or, if none does, of those that list `*`, with that agent; without any the reason is that no group matches. The target is forbidden exactly if some Disallow that counts and matches is more specific than every such Allow; reason and reported rule go with that. |
| `RobotsMeaning.TargetMeans` | src/growth_os/robots/policy.py:61-79 | A target is valid exactly if it begins with one `/` and has no `#`, control character, DEL, surrogate or `%` that begins no escape. |
| `RobotsMeaning.DecodingMeans` | src/growth_os/robots/policy.py:189-194 | Octets decode exactly if they are the encoding of a text without surrogates, and then to that text. |
| `Verdict.WinnerIsFirstBest` | src/growth_os/robots/policy.py:213-220 | The winner applies, no rule that applies is better, and it is better than every earlier rule that applies; there is none exactly when no rule applies. |
| `Verdict.FirstBestUnique` | src/growth_os/robots/policy.py:213-220 | At most one position is first and best. |
| `Verdict.WinnerOfUnique` | src/growth_os/robots/policy.py:212-220 | Dropping repeated rules does not change the winner. |
| `Verdict.WinnerAllows` | src/growth_os/robots/policy.py:213-228 | The winner disallows exactly when some Disallow that applies is more specific than every Allow that applies (RFC 9309 section 2.2.2). |
| `Verdict.DecisionMeaning` | src/growth_os/robots/policy.py:197-228 | A target is allowed exactly when it is the robots URI, no group is selected, or every Disallow that applies is matched by an Allow at least as specific; a reported rule is the first best one. |
| `Verdict.SameRulesSameVerdict` | src/growth_os/robots/policy.py:212-228 | Verdict and strength depend only on the set of rules, not on their order or repetition. |
| `Verdict.RegroupingSameVerdict` | src/growth_os/robots/policy.py:200-228 | Splitting, merging or reordering groups with the same selected rules changes neither verdict nor reason nor agent. |
| `Verdict.MoreAllowMonotone` | src/growth_os/robots/policy.py:213-228 | Adding Allow rules or removing Disallow rules never turns an allowed target into a disallowed one. |
| `Verdict.OrderMattersToReport` | src/growth_os/robots/policy.py:212-228 | Every order of a rule list reports the same text exactly when all best rules that apply have the same normal text. |
| `Verdict.TwoOrdersTwoReports` | src/growth_os/robots/policy.py:213-220 | Two orders of `/a` and `/*a` report different rules for `/a`. |
| `Verdict.BothRulesAreParsed` | src/growth_os/robots/policy.py:117-130 | Both rules are parsed from their texts. |
| `AllowLines.AllowLineHelps` | src/growth_os/robots/policy.py:133-156 | One more `Allow` line anywhere in a file never disallows an allowed target, unless it comes between two agent lines of a group without rules. |
| `AllowLines.SplittingLineHurts` | src/growth_os/robots/policy.py:137-150 | There it does, for a file of five lines. |
| `Verdict.NormalizedTargetSameDecision` | src/growth_os/robots/policy.py:61-114 | A valid target normalises to a valid target that gets the same answer from every file. |
| `Verdict.CanonicalFileSameDecisions` | src/growth_os/robots/policy.py:133-228 | The rendering of a parsed file, if within the size limit, decides every target as the file does. |
| `Fetch.ReadBody` | src/growth_os/acquisition/robots.py:131-137 | The body is the concatenation of all chunks, or an error exactly when that exceeds the limit. |
| `Fetch.FetchRobots` | src/growth_os/acquisition/robots.py:140-185 | For every network, the loop follows one redirect path of at most six hops, resolves each hop before requesting it, makes at most six requests, and returns what the answer to the last hop makes of the fetch, with the path as chain. |
| `Fetch.PathsAgree` | src/growth_os/acquisition/robots.py:140-185 | A network has at most one complete redirect path, so the outcome is determined. |
| `Fetch.TraceBounded` | src/growth_os/acquisition/robots.py:140-185 | There are no more requests than hops, and each follows the resolution of the same URL. |
| `Fetch.HopsMean` | src/growth_os/acquisition/robots.py:148-173 | Every hop but the last resolves, is answered by 301, 302, 303, 307 or 308 with one Location that is not blank, and leads to the next. |
| `Fetch.LastHopMeans` | src/growth_os/acquisition/robots.py:148-185 | The last hop decides: the first thing that goes wrong is the error; otherwise the fetch has its status, and a body only with status 200, within 512000 octets. |
| `Fetch.TraceMeans` | src/growth_os/acquisition/robots.py:146-152 | Each hop is resolved and then requested, in order. |
| `Gate.FetchedAccess` | src/growth_os/robots/gate.py:52-113 | Every fetch result passes the validator; the gate allows exactly a 4xx status or a 200 whose policy allows, never a fetch error, and the policy never finds the body too large. |
| `Gate.InvalidTargetRejected` | src/growth_os/robots/gate.py:76-113 | An invalid target is an input error whatever the outcome of the fetch. |
| `Gate.EmptyFile` | src/growth_os/robots/access.py:33-71 | Evaluating an empty file fails exactly on invalid targets, and then with the input error: this is how targets are checked. |
| `Gate.AccessMeans` | src/growth_os/robots/access.py:33-71 | The reason, the policy decision and the policy error of every access, by status. |
| `Gate.GateMeans` | src/growth_os/robots/gate.py:79-113 | After a fetch the gate answers with that access; after a fetch error it refuses with the error, as unreachable exactly for DNS, timeout, TLS and network failures. |
| `Gate.GateRefuses` | src/growth_os/robots/gate.py:52-84 | The gate refuses exactly what is no result of a fetch. |
| `ExecutionInvariant.EarlierFailed` | src/growth_os/execution_service.py:153-209 | Replaying legal audit events leaves every attempt but the last one FAILED. |
| `ExecutionInvariant.CreateApplies` | src/growth_os/db/models.py:301-342 | The three rows of a creation commit exactly when identifiers, key, workspace, attempt and limits satisfy the constraints. |
| `ExecutionInvariant.CreateKeepsInv` | src/growth_os/execution_service.py:35-92 | A committed creation keeps rows and replayed events in agreement. |
| `ExecutionInvariant.LiveRunIsLast` | src/growth_os/execution_service.py:124-129 | A run that is not FAILED is the highest attempt of its job. |
| `ExecutionInvariant.TransitionKeepsInv` | src/growth_os/execution_service.py:99-151 | A committed transition keeps rows and replayed events in agreement. |
| `ExecutionInvariant.RetryApplies` | src/growth_os/db/models.py:327-342 | A retry commits exactly when its new identifier is unused, given that no run has the next attempt. |
| `ExecutionInvariant.RunBeforeGapIsLast` | src/growth_os/db/models.py:337 | A run after which no attempt exists is the highest attempt of its job. |
| `ExecutionInvariant.RetryKeepsInv` | src/growth_os/execution_service.py:153-209 | A committed retry keeps rows and replayed events in agreement. |
| `ExecutionSafety.TransitionGood` | src/growth_os/execution_service.py:99-151 | Every database call of a transition either leaves the rows alone or commits one legal event, and keeps what the session knows true. |
| `ExecutionSafety.RetryGood` | src/growth_os/execution_service.py:153-209 | The same for a retry. |
| `ExecutionSafety.CreateGood` | src/growth_os/execution_service.py:35-92 | The same for a creation. |
| `ExecutionSafety.StepKeepsInv` | src/growth_os/execution_service.py:35-209 | One call of any session keeps the invariant of rows, sessions and locks. |
| `ExecutionSafety.StepsKeepInv` | src/growth_os/execution_service.py:35-209 | So does every interleaving of any number of sessions. |
| `ExecutionAlone.GraphMeans` | src/growth_os/execution.py:24-47 | The transition graph, edge by edge; the four final statuses have no way out. |
| `ExecutionResults.LatestRunDecides` | src/growth_os/execution_service.py:99-209 | Attempts of a job are exactly 1..n with n at most the maximum; the job has the status of attempt n, every earlier run is FAILED, and limits and delays agree in all runs. |
| `ExecutionResults.LatestRunExists` | src/growth_os/execution_service.py:340-344 | Every job has a run, and the latest-run query has exactly one answer. |
| `ExecutionResults.EventsRebuildRows` | src/growth_os/execution_service.py:131-145 | The events of a job in commit order rebuild its status, its attempts 1..n, their statuses, and the identifiers of its runs. |
| `ExecutionResults.NamedIsRow` | src/growth_os/execution_service.py:376-393 | Every event that names a run names the row of that attempt. |
| `ExecutionResults.RetriesAreNamed` | src/growth_os/execution_service.py:190-203 | Every attempt but the first is named by the event of the retry that made it. |
| `ExecutionResults.EveryScheduleConsistent` | src/growth_os/execution_service.py:99-209 | From an empty database, after every interleaving, the job has the status of its highest attempt and all other runs are FAILED. |
| `ExecutionResults.StaleTransitionLoses` | src/growth_os/execution_service.py:111-129 | A transition that won the compare-and-set of the job wins that of the run exactly when the run it read is still the latest; otherwise it rolls back and changes nothing, even if the job status has returned. |
| `ExecutionResults.RunFree` | src/growth_os/execution_repository.py:66-102 | Whoever has won the job row finds its runs unlocked, so the run compare-and-set never waits. |
| `ExecutionResults.StaleRetryLoses` | src/growth_os/execution_service.py:173-203 | A retry that won the compare-and-set of the job can insert its run exactly when the run it read is still the latest; otherwise the unique constraint makes it change nothing. |
| `ExecutionResults.OneEventPerCommit` | src/growth_os/execution_service.py:131-145 | Every commit that changes rows adds one audit event, and nothing else adds any. |
| `ExecutionResults.RunPathLegal` | src/growth_os/execution.py:24-47 | The status history of every run is a path in the transition graph from QUEUED to its present status. |
| `ExecutionResults.OneRetryPerAttempt` | src/growth_os/execution_service.py:153-209 | No two audit events reserve a retry of one attempt. |
| `ExecutionResults.OneSessionPerAttempt` | src/growth_os/execution_service.py:153-209 | From an empty database, after every schedule: of all sessions that retry one attempt of a job at most one is answered with a new run, whatever the job has gone through in between. |
| `ExecutionResults.StepsPersist` | src/growth_os/execution_service.py:35-209 | No schedule removes a row or rewrites anything but a status, and the audit only grows. |
| `ExecutionResults.EarlierRunsFrozen` | src/growth_os/execution_service.py:153-209 | A run that is no longer the latest never changes again. |
| `ExecutionResults.KeyedCreationFindsJob` | src/growth_os/execution_service.py:45-55 | Once a job has a key, a creation with that key can only find that job. |
| `ExecutionResults.ResendAnswers` | src/growth_os/execution_service.py:346-364 | It then answers with the job and its latest run exactly when the request is the one that created the job, and conflicts otherwise. |
| `ExecutionResults.CreatorPersists` | src/growth_os/execution_service.py:346-364 | No schedule changes which request created a job. |
| `ExecutionResults.NoCreationWithoutWinner` | src/growth_os/execution_service.py:76-80 | With unused identifiers and API-valid limits, a creation that lost its commit always finds a job with its key. |
| `ExecutionTenants.CommitOnView` | src/growth_os/execution_repository.py:29-121 | A commit of one tenant succeeds and acts on the whole database exactly as on the rows of that tenant alone. |
| `ExecutionNonInterference.CallOnView` | src/growth_os/execution_repository.py:29-121 | So does every call of one of its sessions, locks included, and it leaves the rows and events of every other tenant alone. |
| `ExecutionNonInterference.StepOnView` | src/growth_os/execution_repository.py:29-121 | An action of one tenant does to its rows and sessions what it would do there alone, and nothing to those of others. |
| `ExecutionNonInterference.MixedScheduleOnView` | src/growth_os/execution_repository.py:29-121 | So does every schedule of the sessions of any tenants, with its own part of the schedule. |
| `ExecutionNonInterference.NonInterference` | src/growth_os/execution_repository.py:29-121 | Two databases, sets of running sessions and schedules that agree on a tenant give it the same answers, rows and events, whatever other tenants hold and do. |
| `ExecutionService.Repository.GetOwned` | src/growth_os/execution_repository.py:29-37 | The row, if the tenant owns it. |
| `ExecutionService.Repository.GetJobByIdempotencyKey` | src/growth_os/execution_repository.py:39-50 | A job of the tenant with the key, or none if there is none. |
| `ExecutionService.Repository.LatestRun` | src/growth_os/execution_repository.py:52-64 | A run of the job with the highest attempt, or none if there is no run. |
| `ExecutionService.Repository.CompareAndSetJobStatus` | src/growth_os/execution_repository.py:66-83 | The job is written exactly when the tenant owns it with the expected status. |
| `ExecutionService.Repository.CompareAndSetRunStatus` | src/growth_os/execution_repository.py:85-102 | The same for the run. |
| `ExecutionService.Repository.InsertRun` | src/growth_os/execution_repository.py:104-121 | The run is inserted exactly when no constraint forbids it. |
| `ExecutionService.Repository.Commit` | src/growth_os/execution_service.py:366-373 | All pending writes are applied, or none. |
| `ExecutionService.LatestAmong` | src/growth_os/execution_repository.py:52-64 | Among finitely many runs of a job one has the highest attempt, so the query has an answer. |
| `ExecutionService.CallIsStep` | src/growth_os/execution_repository.py:66-121 | A call that finds its locks free is a step of the interleaving machine. |
| `ExecutionService.TransitionJob` | src/growth_os/execution_service.py:99-151 | Over whatever rows other sessions commit between its calls, the method is exactly a session of the machine, answer and rows included. If nobody else commits, it moves the job and its last run and logs that, exactly along an edge of the graph from the status of a job of the tenant; otherwise it answers why not and changes nothing. |
| `ExecutionService.ReserveRetry` | src/growth_os/execution_service.py:153-209 | The same for a retry. If nobody else commits and the new identifier is unused, it is granted exactly if the tenant owns the job and its last run has failed, has the attempt named, and is below its maximum; it is not found exactly if the tenant does not own the job, and an invalid transition otherwise. |
| `ExecutionService.CreateJob` | src/growth_os/execution_service.py:35-92 | The same for a creation, through the lost commit and the winner. If nobody else commits and the new identifiers are unused, a new key in a known workspace and within the limits creates job and run; a used key answers with its job exactly for the same request, and conflicts otherwise. |
| `ExecutionService.IdempotentJobResult` | src/growth_os/execution_service.py:346-364 | The tail of a creation whose key is taken is the last call of such a session. |
| `Listing.FirstRowByJob` | src/growth_os/execution_repository.py:165-167 | Of rows ordered by job and descending attempt, the dictionary keeps one of the highest attempt of every job. |
| `Listing.LatestRunsOfPage` | src/growth_os/execution_repository.py:123-168 | The batched query gives every job of the page a run that the per-job query gives, and none exactly when there is none. |
| `Listing.ListedJobsHaveRuns` | src/growth_os/execution_service.py:232-236 | On reachable rows no listed job lacks a run. |
| `Listing.InOrder` | src/growth_os/execution_repository.py:136-150 | The order by creation time and identifier has an answer, with every chosen job once. |
| `Listing.OrderUnique` | src/growth_os/execution_repository.py:136-150 | And only one. |
| `Listing.ListJobsWithLatestRuns` | src/growth_os/execution_repository.py:123-168 | A page of the jobs that tenant and filter choose, in order, each with the run that its own query gives, and the number of all of them. |
| `Listing.ListJobs` | src/growth_os/execution_service.py:211-237 | On reachable rows a listing is not found exactly when the workspace is not the tenant's; otherwise it shows exactly that page, each job with its latest run. |
| `Listing.ReadAllPages` | src/growth_os/execution_service.py:211-237 | Successive pages together show each job of the tenant in the workspace, status and kind asked for exactly once, older ones first and equally old ones by identifier, with its run of the highest attempt; and the total is their number. |
| `Listing.ReachableListing` | src/growth_os/execution_repository.py:123-168 | After every interleaving from an empty database the rows are consistent and the queries have the specified answers. |
| `Approvals.Repository.CreateProposal` | src/growth_os/execution_service.py:268-297 | The straight-line code is a session of the machine, on whatever rows others commit between its read and its commit. If nobody else commits, a proposal for a job of the tenant is made under an unused identifier, unless it is of high risk and needs no approval. |
| `Approvals.Repository.DecideProposal` | src/growth_os/execution_service.py:299-330 | The same for a decision. If nobody else commits, exactly a proposal of the tenant that awaits approval and has no decision is decided, with the status that was chosen. |
| `Approvals.MoveKeepsInv` | src/growth_os/execution_service.py:268-330 | One call of any proposer or decider keeps: a proposal awaits exactly when it needs approval and has no decision, has at most one decision, and then that status. |
| `Approvals.StepsKeepInv` | src/growth_os/execution_service.py:268-330 | So does every race of any number of them. |
| `Approvals.SecondDeciderLoses` | src/growth_os/db/models.py:388-397 | A proposal that has a decision is not decided again. |
| `Approvals.OneDeciderWins` | src/growth_os/execution_service.py:299-330 | From empty tables, at most one decider of a proposal is told that it decided, and the proposal has the status it chose. |
| `Approvals.HighRiskApproved` | src/growth_os/db/models.py:388-397 | From empty tables, an approved high-risk proposal has exactly one decision, and that decision approves it. |
| `ApprovalsTenants.StepOnView` | src/growth_os/execution_repository.py:29-37 | A call for one tenant does to its proposals, decisions and sessions what it would do there alone, and nothing to those of others. |
| `ApprovalsTenants.MixedScheduleOnView` | src/growth_os/execution_repository.py:29-37 | So does every schedule of the sessions of any tenants. |
| `ApprovalsTenants.NonInterference` | src/growth_os/execution_repository.py:29-37 | Tables, sessions and schedules that agree on a tenant give it the same answers, proposals, decisions and events. |
| `Handoff.StepKeepsGit` | devtools/codex_handoff.py:1698-1749 | History only grows, whoever takes the step, and every commit is younger than its parent. |
| `HandoffGuards.StartGoesOn` | devtools/codex_handoff.py:999-1182 | On every disk, whatever somebody has made of it: a start goes on exactly on the branch of the task, with no child in the way, with dirty work that has a scope, a recorded commit, or the one commit of an interrupted commit phase with recorded parent, tree and subject; and it changes nothing but the record. |
| `HandoffGuards.StartBlocks` | devtools/codex_handoff.py:1141-1146 | It ends as failed exactly if nothing is left. |
| `HandoffGuards.StartAsks` | devtools/codex_handoff.py:1148-1176 | It asks for confirmation exactly for dirty work without a scope, or that a child may have changed. |
| `HandoffGuards.ConfirmationGoesOn` | devtools/codex_handoff.py:2042-2103 | A confirmation goes on exactly where one is asked for, with dirty work on the branch and the recorded base, and records the present scope. |
| `HandoffGuards.FailureIsRecorded` | devtools/codex_handoff.py:2222-2274 | A recorded failure keeps a recovery, and a task in one of eight states with a scope or a recorded commit; otherwise the task has failed. |
| `HandoffGuards.InterruptionIsRecorded` | devtools/codex_handoff.py:2277-2300 | An interruption keeps exactly what has a scope or a checkpoint. |
| `HandoffGuards.OverclaimIsRefused` | devtools/codex_handoff.py:1808-1838 | A recovery refuses, and changes nothing, if HEAD is not the recorded commit, a claimed push is not the remote head, a claimed pull request is not open, or the tree is dirty. |
| `HandoffGuards.TrueClaimGoesOn` | devtools/codex_handoff.py:1862-1868 | And it goes on behind every checkpoint that is true. |
| `HandoffGuards.ScopeIsProvenTwice` | devtools/codex_handoff.py:622-661 | Without a checkpoint it goes on, before the gates and after them, exactly if HEAD, dirty paths, index and content are the recorded ones, or base and content once staging has begun. |
| `HandoffGuards.GatesAreFollowedByAProof` | devtools/codex_handoff.py:1869-1873 | After the gates a checkpoint goes on exactly if the tree is clean, where it has left off. |
| `HandoffGuards.OnlyTheRecordedCommitIsPublished` | devtools/codex_handoff.py:1808-1838 | From every disk, over every schedule whose edits come while the controller is down: only the recorded commit is pushed, and a pull request is opened only for the recorded commit that is the remote head. |
| `HandoffGuards.PullRequestIsAdopted` | devtools/codex_handoff.py:1906-1928 | A recovery adopts the one open draft, refuses several, and refuses one that is not the recorded one; a fresh run opens one. |
| `HandoffGuards.StateNamesPhase` | devtools/codex_handoff.py:1698-1768 | Over every schedule, edits included, the recorded state names the phase that the controller is in. |
| `HandoffGuards.CommitIsMade` | devtools/codex_handoff.py:1737-1741 | What is staged becomes a commit on HEAD, with the subject of its round, unless nothing is staged. |
| `HandoffGuards.ReviewIsDecided` | devtools/codex_handoff.py:1757-1765 | A review that ends passes, or asks for a fix in the first and second round, or ends the task in the third. |
| `HandoffGuards.FixIsDecided` | devtools/codex_handoff.py:1656-1677 | A fix that ends is verified if it has succeeded, and preserved if it has failed, but only with changes. |
| `HandoffGuards.PassIsRecorded` | devtools/codex_handoff.py:1943-1949 | A passed review is recorded, and nothing else changes. |
| `HandoffInvariant.CleanMeans` | devtools/codex_handoff.py:535-552 | No dirty path means that index and worktree are the tree of HEAD. |
| `HandoffInvariant.CommitStepKeepsInv` | devtools/codex_handoff.py:1698-1749 | The commit phase keeps the checkpoint true. |
| `HandoffInvariant.ReviewStepKeepsInv` | devtools/codex_handoff.py:1757-1768 | So does the review loop; a fix round drops the old checkpoint before any edit. |
| `HandoffInvariant.CheckpointNeverOverclaims` | devtools/codex_handoff.py:1840-1938 | Over fresh runs, fix rounds, failures, crashes, restarts, interruptions and confirmations: COMMITTED means HEAD is the recorded commit and the tree is clean, PUSHED that the remote head is it too, PR_CREATED that the one pull request is the recorded one; and at most one is ever opened. |
| `HandoffInvariant.FixStartsWithoutCheckpoint` | devtools/codex_handoff.py:1640-1677 | In every reached configuration at most one pull request is open, and a fixing child runs behind no checkpoint and with one pull request. |
| `HandoffInvariant.CapturedInv` | devtools/codex_handoff.py:2108-2210 | A fresh run whose child left captured work starts within the invariant. |
| `HandoffInvariant.CapturedIsWork` | devtools/codex_handoff.py:2108-2210 | It is captured work, about to be verified and committed. |
| `HandoffInvariant.FixIsWork` | devtools/codex_handoff.py:1640-1677 | So is what a successful fixing child leaves, in every round. |
| `HandoffRecovery.ReconcileKeepsChangeSet` | devtools/codex_handoff.py:1112-1157 | A restart never takes the base for the interrupted commit. |
| `HandoffRecovery.AtMostOneCommit` | devtools/codex_handoff.py:1698-1749 | While nobody edits files, any schedule of effects, failures, crashes, restarts, interruptions and confirmations advances HEAD by at most one commit, with the captured base as parent and the captured tree; and by exactly one whenever the checkpoint says so. |
| `HandoffRecovery.CapturedIsChangeSet` | devtools/codex_handoff.py:1698-1749 | Captured work, of a fresh run or of a fix round, starts as an uncommitted change set. |
| `HandoffEdits.WorkIsOverlay` | devtools/codex_handoff.py:535-552 | A worktree is the tree of HEAD with the content of the dirty paths laid over it. |
| `HandoffEdits.ValidScopeIsMoment` | devtools/codex_handoff.py:622-661 | A scope that validates shows that HEAD and the whole worktree are those of a recorded moment, whatever happened since. |
| `HandoffEdits.RunsAreFaithful` | devtools/codex_handoff.py:622-661 | After any schedule, edits while the controller is down or verifies included, every durable capture and every commit phase of a recovery answers to a recorded moment. |
| `HandoffEdits.RecoveryCommitsACapture` | devtools/codex_handoff.py:1860-1882 | The controller extends history only by committing, and what a recovery commits has the captured base as parent and the tree of that base with the captured content laid over it, which were HEAD and worktree at a recorded moment; otherwise it refuses. |
| `HandoffEdits.RecoveryAfterFreshRun` | devtools/codex_handoff.py:1860-1882 | So from every fresh run on, with the moment its child left as the first one recorded. |
| `HandoffCompletion.StagingKeepsScope` | devtools/codex_handoff.py:1725 | Staging everything keeps the dirty paths exactly when no dirty path equals HEAD in the worktree. |
| `HandoffCompletion.StepKeepsGood` | devtools/codex_handoff.py:1840-1938 | Effects, failures, crashes, interruptions of a task and confirmations leave a good configuration good unless the controller gives up (by a STOPPED record, a recorded stop behind an unrecorded commit, or a recorded failure before verification), and a success brings it closer to publication. |
| `HandoffCompletion.GoodPublishes` | devtools/codex_handoff.py:1840-1938 | Unless the controller gives up, fifteen successes in a row publish the change set as one commit, pushed, with one draft pull request. |
| `HandoffCompletion.CapturedIsGood` | devtools/codex_handoff.py:1840-1938 | Captured work without a put-back path starts as a good configuration. |
| `HandoffCompletion.PublishedUnlessGivenUp` | devtools/codex_handoff.py:2366-2419 | Under every schedule of failures, crashes, restarts, interruptions and halts that ends with enough successes, captured work without a put-back path is published as exactly one commit if and only if the controller does not, before that, record STOPPED, a stop behind an unrecorded commit, or a failure before verification has begun. |
| `HandoffLosses.CrashFreeCompletes` | devtools/codex_handoff.py:1698-1749 | Without crash or failure, captured work is published exactly when it differs from the tree of HEAD. |
| `HandoffLosses.SurvivesEveryCrash` | devtools/codex_handoff.py:1698-1749 | Captured work, of a fresh run or of a fix round, survives every pattern of crashes, and is then published as exactly one commit, if and only if no dirty path has been staged and put back. |
| `HandoffLosses.LostIsNeverPublished` | devtools/codex_handoff.py:639-647 | Once the dirty paths are no longer the captured ones, no restart ever publishes the work. |
| `HandoffLosses.RevertedIsDoomed` | devtools/codex_handoff.py:1713-1736 | With a put-back path, a crash between staging and the record of the staged tree leaves exactly that. |
| `HandoffLosses.OneCrashLosesTheWork` | devtools/codex_handoff.py:1713-1736 | Captured work is published without a crash and never after that one, whatever follows, exactly when it differs from HEAD and has a put-back path beside it. |
| `HandoffLosses.StagedAndPutBack` | devtools/codex_handoff.py:1725 | There is such a fresh run, with two dirty paths. |
| `HandoffFailures.OneFailureResumes` | docs/DEV-HANDOFF.md:167-169 | One failing effect between restart and recorded pull request, and then crashes and successes: the work is published exactly unless the effect was the record of the commit, or of a fresh run or fix that it begins to verify. |
| `HandoffFailures.RecordedWorkResumes` | docs/DEV-HANDOFF.md:167-169 | Once the commit is recorded, the work is published whatever fails, crashes and stops before enough successes, exactly unless the controller is made to record STOPPED. |
| `HandoffFailures.HaltIsFinal` | devtools/codex_handoff.py:2416-2419 | After a STOPPED record over preserved work no start looks at the task again, and nothing is committed, pushed or opened. |
| `HandoffFailures.HaltStrandsCommittedWork` | devtools/codex_handoff.py:2370-2419 | Every change can be stranded so, committed and recorded, by a crash and one interruption of the controller that starts again. |
| `HandoffFailures.ReviewFailureResumes` | devtools/codex_handoff.py:2222-2274 | After a failure in the review loop while no fixer runs or ends, under every schedule without edits that ends with enough successes, review begins again behind the same commit and one pull request, exactly unless the failure was the start of a fixer, or that of a reviewer of a fresh run behind a mere LAUNCHING record, or the controller is made to record STOPPED. |
| `HandoffFailures.ReviewStopResumes` | devtools/codex_handoff.py:1757-1768 | After a crash or an interruption in the review loop while no fixer runs or ends, a reviewer that may be alive still included, review begins again likewise, exactly unless the checkpoint was reset for a fixer that had not started, or the controller is made to record STOPPED. |
| `HandoffFailures.FailedFixResumes` | devtools/codex_handoff.py:868-895 | The work of a failing fixer that has put back nothing it had staged is verified, committed and pushed after the restart, through all crashes, exactly when it has changed something and its end is on record, or the record of its end has failed once in a recovery. |
| `HandoffFailures.IdleFixIsRefused` | devtools/codex_handoff.py:1656-1674 | A fixer that ends without changes, successfully or not, ends the task: nothing is published again. |
| `HandoffFailures.UnrecordedCommitIsFound` | devtools/codex_handoff.py:1112-1157 | A restart finds a commit that was made but not recorded exactly when the state is still COMMITTING, and gives it up otherwise. |
| `HandoffFailures.FailureAfterCommitIsRefused` | devtools/codex_handoff.py:2222-2274 | A crash between commit and record is recovered; a failure there is not: the next start blocks, with the commit left in place. |
| `HandoffFailures.FailedRecordStrandsTheWork` | devtools/codex_handoff.py:1737-1748 | Every change can be stranded so: committed, and never published. |
| `HandoffFailures.FailedReviewerStrandsTheRun` | devtools/codex_handoff.py:738-763 | Every fresh run that changes something can be stranded by a first reviewer that does not start: pushed, with an open pull request, and refused for ever. |
| `HandoffFailures.FailureBeforeVerificationStrandsTheWork` | devtools/codex_handoff.py:2243-2255 | A fresh run or its fix that fails before it has begun to verify leaves its work uncommitted and the task refused for ever. |
| `HandoffController.RunNIsSteps` | devtools/codex_handoff.py:1840-1938 | A run of effects is a schedule of the protocol, so the results above hold of the procedures below. |
| `HandoffController.Controller.ReconcileStaleRun` | devtools/codex_handoff.py:999-1182 | The branches of the startup procedure, live children and the branch check included, are the restart of the protocol. |
| `HandoffController.Controller.StageWithCheckpoint` | devtools/codex_handoff.py:1708-1736 | Staging between two durable records, stopped after any number of effects, is a run of the protocol. |
| `HandoffController.Controller.CommitWithRecoveryCheckpoint` | devtools/codex_handoff.py:1698-1749 | So is the whole commit procedure, failures included. |
| `HandoffController.Controller.PublishBranch` | devtools/codex_handoff.py:1887-1898 | The push between two durable records is a run of the protocol. |
| `HandoffController.Controller.Publish` | devtools/codex_handoff.py:1887-1935 | So is push and pull request, or the pull request alone. |
| `HandoffController.Controller.FinalizeChanges` | devtools/codex_handoff.py:1840-1946 | The whole finalisation, stopped after any number of effects, is a run of the protocol, ends published, failed or stopped, and keeps the checkpoint true; a recovery whose checkpoint claims more than there is changes nothing and fails. |
| `HandoffController.Controller.RecoverChanges` | devtools/codex_handoff.py:2021-2039 | So is a recovery, and its failure leaves the work recoverable; one whose checkpoint claims too much leaves repository, remote and pull requests alone. |
| `Review.RunReviewFixLoop` | devtools/codex_handoff.py:1757-1768 | For every reviewer, fixer, gate and remote: at most three reviews and two fixes; each event follows the one before (changes asked for are fixed, a fix is verified, committed and pushed, and what is pushed is reviewed); the result is that of the first round that does not ask for changes and make them, its verdict or its first failing step; it passes with the pass last and at the current HEAD. |
| `Review.RunFixRound` | devtools/codex_handoff.py:1766-1767 | A fix round succeeds exactly when fix, gates, commit, its record and push do, and commits only what the gates saw; a commit that is not recorded stays in the history. |
| `Merge.AutoMergePolicyReasons` | devtools/codex_handoff.py:1315-1339 | No reason is given exactly when the assessment authorises the merge and some path is changed and none is protected; each thing declared and each protected path has its own reason. |
| `Merge.PrReasons` | devtools/codex_handoff.py:1342-1368 | No reason is given exactly when the pull request is open, on main, from the branch, at the reviewed head, mergeable, unblocked and marked. |
| `Merge.PrReasonsMean` | devtools/codex_handoff.py:1342-1368 | Each thing that is wrong with the pull request has its own reason. |
| `Merge.ProblemMeans` | devtools/codex_handoff.py:1424-1448 | The first of four things that can be wrong with an issue is its problem: not the one asked for, not the owner's, not open, no valid contract. |
| `Merge.MergeReviewedPr` | devtools/codex_handoff.py:1451-1549 | Whatever GitHub shows at each call: a merge is asked for only for the reviewed head, only right after an issue that is current, open, the owner's, with a valid contract and an assessment that authorises it, a pull request that is fit and out of draft, and resolved threads, and only after two validations; an issue with a problem ends the attempt with that problem; the draft is made ready only after the first validation; without an objection the merge is blocked only by a draft that stays one or a rejected command; and GitHub has the last word. |
| `Merge.FinishReviewed` | devtools/codex_handoff.py:1956-1967 | A recovery never asks for a merge; a run asks for one only at the head it is given, after clean reads and two validations. |
| `Finalization.FinishFinalization` | devtools/codex_handoff.py:1942-1967 | Through review loop and merge: a merge is asked for only if merging is allowed and only for the head of the last review, which passed and is HEAD, right after clean reads; a loop that does not pass asks for nothing. |
| `Porcelain.WorkingTreePaths` | devtools/codex_handoff.py:535-552 | The loop returns the paths of all entries, with the origins of renames, and fails exactly when the fields are no entries; what git writes is never refused. |
| `Porcelain.ReadBack` | devtools/codex_handoff.py:535-552 | Entries written with NUL separators are read back one by one. |
| `Porcelain.OnlyWhatGitWrites` | devtools/codex_handoff.py:535-552 | What is accepted is, up to the first empty field, the fields of well-formed entries. |

## Left out

- Handoff: the names of branches, process identifiers and groups, the lock file, heartbeats and signals; `pid` tells whether a child is recorded, `onBranch` whether the checkout is the task's branch, and whether a recorded child lives or can be identified is the world's choice.
- Handoff: SHA-256 and its framing; a snapshot is the recorded structure itself. Renames show as a removal and an addition, ignored files are not dirty.
- Handoff: labels, comments and log files; the issue read of a recovery; unreadable or foreign status files.
- Handoff: how the implementation child is run before its work is captured; its launch is that of a fixing child, which is modelled.
- Handoff: a command that fails has no effect; a status write is atomic, as its replace and fsync intend. A push or merge that takes effect and still reports an error is the effect followed by a crash.
- Handoff: a stop or a restart whose own record fails is a crash; an error while a child runs is one at its end.
- Handoff: a confirmation is given once a recorded child has ended; the code refuses it before.
- Handoff: what a controller does with other issues once a task is refused.
- Handoff: other pull requests of the branch, and changes of the remote branch by others. `prs` holds the open drafts, and their head is the remote branch.
- Handoff: a run that has passed review ends there; review loop and merge are composed in `Finalization`, on their own state.
- HandoffEdits.RecoveryCommitsACapture: edits happen while the controller is down or verifies, not between the last scope check and the commit, where the code does not look again.
- Review.RunReviewFixLoop: nobody else moves HEAD or edits files during the loop; the fixer's work reaches gates and commit unchanged.
- Merge: parsing of the assessment block and of GitHub's answers; an assessment that does not parse is `None`. `isProtected` is a parameter. Changed paths are read once, as in the code.
- Merge.MergeReviewedPr: a merge reported after a rejected command is taken from GitHub's word, as in the code; the model does not say who made it.
- Porcelain: the sorting of the paths; the result is their set.
- Robots: URL parsing, DNS, TLS, the content type and the time limit are the oracle's answers.
- Robots: field names and agents are lower-cased in ASCII only; no other character lowers to a letter of the names compared.
- Robots: `binding.py` and `cache.py`, which add checks without loops.
- Execution: the identity map and flush order of the session; a read sees the rows committed at its moment.
- Execution: a call that would wait for a row lock is a call made once the lock is free.
- Execution: identifiers are natural numbers; their freshness is a hypothesis where it matters (`NoCreationWithoutWinner`), and so is that tenants do not generate one another's identifiers (`NonInterference`).
- Execution: timestamps, actors, descriptions and error codes.
- Execution: foreign keys forbid deleting rows, and no call deletes any.
- Listing.ReadAllPages: the rows do not change between the pages; that they are consistent is `ReachableListing`.
- Listing: the listings of runs, proposals and audit events, which only filter and page.
- Approvals: actors and reasons carry no constraint, and jobs do not change.
- Foundation records, onboarding, evidence, HTML analysis, routers and settings: not part of this model.
