# Claude insights agent: a Dafny model of the sync engine

The agent watches the transcripts Claude Code writes under `~/.claude/projects`
and the plan documents under `~/.claude/plans`. On each pass it works through
these steps:

- parse every transcript it has not delivered yet into a session record;
- apply the user's privacy settings to that record;
- upload the records to an insights server in batches of ten, with retries;
- record what the server acknowledged in a ledger, so later passes skip it.

This project models that engine as pure functions over immutable data and
proves what the engine promises about it.

The model works without the file system, the network and the clock, which
become data:

- a directory walk is a sequence of `Entry` values;
- a transcript is a sequence of already-decoded lines;
- a plan file is its text and modification time, each of which may be
  missing;
- the server is an oracle, a sequence of per-request `Outcome`s;
- the clock is one `now` reading per pass.

The modules follow the program:

| module | file | what it is |
|---|---|---|
| `Wrappers`, `Clock`, `Strings`, `Paths`, `Glob` | `wrappers.dfy` … `glob.dfy` | `Option`/`Result`, abstract time, and the parts of Go's `strings`, `path/filepath` and `filepath.Match` the agent uses |
| `Config` | `config.dfy` | configuration shape, defaults, validation |
| `Records` | `records.dfy` | the session record and its parts |
| `Jsonl`, `JsonlFacts` | `jsonl.dfy`, `jsonl_facts.dfy` | the transcript parser as a left fold, and reference definitions its result is proved against |
| `Tags` | `tags.dfy` | tool tags and keyword tags of a finished session |
| `Plans` | `plans.dfy` | plan name, title and content |
| `Filter` | `filter.dfy` | project exclusion and share levels |
| `Delivery` | `delivery.dfy` | batching, the retry loop, backoff, acknowledgement marking |
| `Watcher`, `WatcherFacts` | `watcher.dfy`, `watcher_facts.dfy` | the sync pass and its properties across one and two passes |

A few behaviours of the code are easy to misread. The model follows the
code in each:

- **Exclusion depth.** The comments at `internal/filter/filter.go:73-75`
  introduce the `**` branch as checking "any part of the path" with "simple
  glob matching for **". The branch rewrites `**` to `*`, which never
  crosses a `/`, and compares the result with single path elements, so a
  pattern with a `/` in it never matches there. As a result,
  `**/secret/**` does not exclude `/home/u/secret/app`
  (`Filter.NestedDirectoryNotExcluded`).
- **Partial acknowledgement.** A successful request marks only the first
  `len(responses)` items of the batch. A response longer than the batch,
  or one holding a `null` entry, panics before the state is saved. The
  model calls such a pass *crashed*, and a crashed pass leaves the saved
  state as it was.
- **Backoff.** The retry loop sleeps after every failed attempt, the last
  one included, so n failures sleep 2 + 4 + … + 2n = n(n+1) seconds.
- **Unreadable logs root.** The walk callback swallows every error, the
  root's included, so discovery never fails; it just finds nothing.
- **Parse errors.** A session parse fails when the file cannot be opened
  and also when the scanner reports an error, for example a line over the
  10 MiB buffer. The pass then skips that transcript and tries it again
  on the next pass.
- **retry_attempts.** Validation accepts a value below one. With such a
  value, no upload request is made at all. Withheld sessions are still
  recorded.

## Model

| member | source | states |
|---|---|---|
| Config.DefaultConfig | internal/config/config.go:39-56 | the defaults name a server but no API key; level "metadata", paths anonymised, no exclusions, interval 300 s, 3 attempts |
| Config.Validate | internal/config/config.go:108-119 | the three checks in order, as an if-and-only-if per error: URL first, then API key, then share level; no error exactly when all three hold |
| Config.DefaultsNeedOnlyAKey | internal/config/config.go:108-114 | the defaults fail with the missing-API-key error, and pass once any non-empty key is supplied |
| Strings.TrimPrefix | internal/parser/plans.go:39 | the prefix plus the result is the input when the prefix is present; otherwise the input is returned unchanged |
| Strings.TrimSuffix | internal/parser/jsonl.go:102 | the result plus the suffix is the input when the suffix is present; otherwise the input is returned unchanged |
| Strings.Split | internal/parser/jsonl.go:113 | at least one part, and no part contains the separator |
| Strings.JoinSplit | internal/filter/filter.go:77 | joining the parts of a split with the separator gives back the original string |
| Strings.SplitJoin | internal/parser/jsonl.go:113-115 | splitting a join of separator-free parts gives back the parts |
| Strings.ReplaceChar | internal/parser/jsonl.go:112 | same length; every occurrence of the character is replaced and nothing else changes |
| Strings.ToLower | internal/parser/jsonl.go:251 | same length; each character lower-cased on its own |
| Strings.TrimSpace | internal/parser/plans.go:40 | the result is an infix of the input with only white space outside it, and it neither starts nor ends with white space: the longest such infix |
| Strings.TrimLeftSpace | internal/parser/plans.go:40 | the result is a suffix of the input; everything dropped is white space and the result does not start with any |
| Strings.TrimRightSpace | internal/parser/plans.go:40 | the result is a prefix of the input; everything dropped is white space and the result does not end with any |
| Paths.Base | internal/parser/jsonl.go:102 | never empty; "/" or slash-free; "." for the empty path |
| Paths.BaseOfChild | internal/filter/filter.go:43 | the last element of `dir/name` is `name` |
| Paths.ParentOfChild | internal/parser/jsonl.go:110 | the parent directory's name of `dir/parent/name` is `parent` |
| Glob.MatchNeedsSlash | internal/filter/filter.go:79 | a pattern containing '/' matches only names containing '/', so it never matches a single path element |
| Glob.CollapseStars | internal/filter/filter.go:76 | rewriting `**` to `*` does not change what a pattern matches |
| Jsonl.ProjectOf | internal/parser/jsonl.go:109-117 | when the parent directory name starts with '-', the project path is that name with every '-' turned into '/' and every other character kept in place, and the project name is the path's last element; otherwise both are empty |
| Jsonl.LastPartIsSuffix | internal/parser/jsonl.go:113-116 | a rooted path ends in "/" followed by its last split part |
| JsonlFacts.SessionIDOfFile | internal/parser/jsonl.go:102 | `dir/id.jsonl` has session id `id` |
| JsonlFacts.ParseJSONLFacts | internal/parser/jsonl.go:94-235 | a fully scanned transcript parses, and the result agrees with reference definitions: id and project from the path; message count equal to the number of user/assistant records and to the message list's length, each message with sequence number i, its record's time, role and joined text; the tool-call list is exactly one entry per named tool_use block in file order, tagged with its turn's number, and the tool statistics count exactly those entries; the usage list is exactly one entry per turn carrying usage, in file order, with that turn's number, time, model and token counts, and the totals are its sums; the last non-empty model; the first non-zero parsed time as start and the last parsed time as end; tags generated from the finished session |
| JsonlFacts.ParsedSessionID | internal/parser/jsonl.go:101-107 | any session the parser returns is named after its file |
| JsonlFacts.ParseErrors | internal/parser/jsonl.go:94-234 | an unopenable file is an open error; a scanner error is an error carrying the session built from the lines read, the very session a clean scan of those lines returns |
| JsonlFacts.NoiseIgnored | internal/parser/jsonl.go:127-136 | a blank or undecodable line anywhere leaves the fold's result unchanged |
| JsonlFacts.MalformedLineIgnored | internal/parser/jsonl.go:133-136 | a malformed line among valid ones changes nothing in the parsed session |
| JsonlFacts.ScanMessages | internal/parser/jsonl.go:150-220 | messages counted once per user/assistant record, numbered 0..n-1 in file order, with the expected time, role and text |
| JsonlFacts.ScanTools | internal/parser/jsonl.go:167-188 | for every recorded tool, count equals success equals the (non-zero) number of tool-call entries naming it and errors stay zero; a name outside the statistics has no entries; every entry succeeds and names a recorded, non-empty tool |
| JsonlFacts.ScanTokens | internal/parser/jsonl.go:193-207 | token totals are the sums over the per-message usage list, which has one entry per record carrying usage |
| JsonlFacts.ScanModel | internal/parser/jsonl.go:208-210 | the model is the last non-empty model of the turns, or empty when there is none |
| JsonlFacts.ScanTimes | internal/parser/jsonl.go:138-146 | the first timestamp is the first non-zero parsed one; the last is the last parsed one |
| JsonlFacts.FinishFacts | internal/parser/jsonl.go:224-232 | finishing sets the start time, sets the end time only when it is non-zero, and sets the tags; nothing else changes |
| JsonlFacts.ScanKeepsIdentity | internal/parser/jsonl.go:101-117 | the fold never changes the id or project fields it starts from |
| JsonlFacts.FoldCounts | internal/parser/jsonl.go:125-220 | from an untouched start, the finished session counts one message per user/assistant record and holds the expected message for each, has exactly the expected tool-call and usage lists, keeps tool statistics in step with the tool-call list, and totals tokens over the usage list |
| JsonlFacts.FoldStamps | internal/parser/jsonl.go:101-232 | from an untouched start, the finished session keeps the id and project it started with, has the last non-empty model, starts at the first non-zero parsed time, ends at the last parsed time when that is non-zero, and carries the tags generated from it |
| JsonlFacts.AddCallConsistent | internal/parser/jsonl.go:167-188 | recording one successful call of a named tool keeps every tool's count and success equal to its number of calls and every call naming a counted tool |
| JsonlFacts.FinishKeepsCounts | internal/parser/jsonl.go:224-232 | finishing sets only the start, end and tags; messages, tools and tokens pass through unchanged |
| JsonlFacts.BlocksTexts | internal/parser/jsonl.go:163-166 | a message's text parts are its text blocks' texts in block order |
| JsonlFacts.BlocksConsistent | internal/parser/jsonl.go:167-188 | scanning a message's blocks keeps the tool statistics consistent with the tool-call list |
| JsonlFacts.BlocksCalls | internal/parser/jsonl.go:166-186 | scanning a message's blocks appends to the call list exactly one entry per tool_use block with a non-empty name, in block order, with the message's number, the tool's name and input, and success set |
| JsonlFacts.ScanSeq | internal/parser/jsonl.go:125-220 | the message sequence number advances by one per user/assistant record and by nothing else |
| JsonlFacts.ScanCalls | internal/parser/jsonl.go:166-186 | from an empty call list, the fold's call list is exactly the expected one: the i-th turn's named tool_use blocks, in file order, each tagged with i |
| JsonlFacts.ScanUsage | internal/parser/jsonl.go:192-205 | from an empty usage list, the fold's usage list is exactly one entry per turn carrying usage, in file order, with that turn's number, time, model and four token counts |
| Tags.ToolTagIff | internal/parser/jsonl.go:240-243 | `tool:n` is a tag if and only if tool n was used |
| Tags.TopicTagIff | internal/parser/jsonl.go:245-269 | a topic tag is present if and only if a keyword occurs in the lower-cased, space-joined first five messages |
| Tags.NoTopicIsAToolTag | internal/parser/jsonl.go:254-260 | no topic tag looks like a tool tag, so the two kinds never collide |
| Tags.LaterMessagesIgnored | internal/parser/jsonl.go:247-250 | messages after the fifth do not affect the tags |
| Tags.DebuggingExample | internal/parser/jsonl.go:255 | "I found a bug, let's debug" as the first message yields "debugging" |
| Plans.TitleFrom | internal/parser/plans.go:35-43 | the fallback when no line starts with "# "; otherwise the trimmed text after "# " on the first such line |
| Plans.ParsePlan | internal/parser/plans.go:19-51 | a read error comes first, then a stat error; otherwise the name from the file name, the text unchanged, the modification time, and the title from the first heading or the name |
| Plans.PlanNameOfFile | internal/parser/plans.go:32 | `dir/name.md` is the plan named `name` |
| Plans.LeadingHeadingIsTitle | internal/parser/plans.go:37-42 | a plan whose first line is "# heading" is titled with the trimmed heading |
| Plans.SubheadingIsNotTitle | internal/parser/plans.go:35-38 | a "## x" line is not a title line; the name stands in |
| Plans.FirstHeadingWins | internal/parser/plans.go:37-42 | lines after a heading do not change the title |
| Filter.AnySegmentMatches | internal/filter/filter.go:77-82 | true if and only if some path element matches |
| Filter.IsExcluded | internal/filter/filter.go:67-86 | excluded if and only if some pattern matches the whole path or, containing `**`, matches an element after the rewrite |
| Filter.Apply | internal/filter/filter.go:22-64 | nothing exactly for an excluded project or level "none"; otherwise a copy with every metadata field kept, the project path, usage list and tool calls emptied, the project name anonymised or not, and messages kept exactly at level "full" |
| Filter.NoPatternsExcludeNothing | internal/filter/filter.go:67-86 | an empty pattern list excludes nothing |
| Filter.MorePatternsExcludeMore | internal/filter/filter.go:68-84 | adding patterns never un-excludes a path |
| Filter.SegmentCheckUsesPattern | internal/filter/filter.go:74-82 | the per-element check behaves as if the original pattern were used |
| Filter.SlashPatternsMatchWholePath | internal/filter/filter.go:69-82 | a pattern containing '/' excludes exactly the paths it matches whole |
| Filter.NestedDirectoryNotExcluded | internal/filter/filter.go:74-82 | `**/secret/**` does not exclude `/home/u/secret/app` |
| Filter.ElementPatternExcludes | internal/filter/filter.go:74-82 | `**name**` excludes every path with `name` as one of its elements |
| Filter.AnonymisedNameIsProjectName | internal/filter/filter.go:42-46 | with anonymisation, the shared name of a parsed project is the project name the parser derived |
| Filter.ShareLevels | internal/filter/filter.go:49-61 | for a project that is not excluded: level "none" shares nothing; "metadata" shares no messages; "full" shares them all |
| Delivery.Classify | internal/client/api.go:103-127 | 401 is unauthorized, any other status of 400 or more is a server error carrying the status and body, and an undecodable body is a bad response; otherwise accepted with the decoded entries |
| Delivery.Chunks | internal/watcher/watcher.go:146-153 | ceil(n/10) batches, each of 1 to 10 items, all full but the last |
| Delivery.ChunkAt | internal/watcher/watcher.go:148-153 | batch i is items 10i up to min(10i+10, n) |
| Delivery.ChunksFlatten | internal/watcher/watcher.go:148-153 | the batches together are the upload list: nothing lost, duplicated or reordered |
| Delivery.TwentyThreeItems | internal/watcher/watcher.go:147-153 | 23 items make batches of 10, 10 and 3 |
| Delivery.RetryFrom | internal/watcher/watcher.go:156-172 | no request when the attempts are exhausted, and never more requests than attempts remain |
| Delivery.RetryTrace | internal/watcher/watcher.go:156-171 | every request sends this batch as attempt 1, 2, … in turn, gets the next outcome, and is followed by the backoff that outcome calls for |
| Delivery.RetryStops | internal/watcher/watcher.go:156-172 | no request follows an accepted one; a last request that failed was the last attempt allowed; the loop crashes exactly when its last response cannot be marked |
| Delivery.FailingRetries | internal/watcher/watcher.go:156-172 | against a server that never accepts, every remaining attempt is made and the backoff adds up to the triangle numbers |
| Delivery.FailingBatchBackoff | internal/watcher/watcher.go:169-171 | a batch that always fails makes exactly retry_attempts requests and sleeps n(n+1) seconds in total |
| Delivery.AckedWereSent | internal/watcher/watcher.go:157-160 | only items a request carried can be acknowledged |
| Delivery.SentOfOneBatch | internal/watcher/watcher.go:153-157 | the retries of one batch send only that batch's items |
| Delivery.Mark | internal/watcher/watcher.go:160 | the ledger gains the keys, each stamped `now`; other entries keep their time |
| Delivery.MarkTwice | internal/watcher/watcher.go:138-160 | marking two key sets in turn is marking their union |
| Delivery.RetryFirstAttempt | internal/watcher/watcher.go:156-157 | with at least one attempt allowed, each batch is tried once as attempt 1 |
| Delivery.UploadAll | internal/watcher/watcher.go:148-177 | a crash leaves the ledger unchanged; no batches means no requests |
| Delivery.UploadTrace | internal/watcher/watcher.go:148-172 | the requests consume the outcomes in order, every attempt number lies in 1..retry_attempts, and the backoffs are as the loop computes them |
| Delivery.RetryCrash | internal/watcher/watcher.go:157-164 | within one batch, only the last request can crash |
| Delivery.UploadCrash | internal/watcher/watcher.go:148-177 | across all batches, only the last request can crash, and the pass crashes exactly when it does |
| Delivery.UploadLedger | internal/watcher/watcher.go:158-164 | without a crash, the ledger gains exactly the acknowledged keys, stamped `now` |
| Delivery.UploadFirstAttempts | internal/watcher/watcher.go:148-157 | without a crash, the first attempts are the batches in order, or nothing when no attempt is allowed |
| Delivery.NothingAccepted | internal/watcher/watcher.go:155-176 | when no request is accepted, each batch makes retry_attempts requests, nothing is marked, and no batch stops the next |
| Delivery.UploadSentWithin | internal/watcher/watcher.go:148-157 | no request carries an item outside the upload list |
| Delivery.NoAttemptsNoCalls | internal/watcher/watcher.go:156 | with retry_attempts below one, no request is made and the ledger is unchanged |
| Watcher.LoadState | internal/watcher/watcher.go:312-330 | a missing file is an empty state; a stored state loads as is; a read error or decode error is an error |
| Watcher.StateForPass | internal/watcher/watcher.go:50-58 | a pass starts from the loaded state, or from an empty one when loading fails |
| Watcher.GetStats | internal/watcher/watcher.go:349-359 | the ledger sizes and the last pass time, or all zeros when the state cannot be loaded |
| Watcher.FindFiles | internal/watcher/watcher.go:278-309 | a path is found if and only if some walked entry with that path is not a directory and ends in the suffix; never more paths than entries |
| Watcher.FindFilesOne | internal/watcher/watcher.go:283-286 | one walked entry yields its path exactly when it is not a directory and ends in the suffix |
| Watcher.FindFilesSplits | internal/watcher/watcher.go:278-309 | discovery is an order-preserving filter: the files of a walk split anywhere are the files of the first part followed by those of the second |
| Watcher.ParserNamesFromFiles | internal/parser/jsonl.go:101-107 | the parser names every session it returns after its file, which the pass relies on |
| Watcher.SessionCandidates | internal/watcher/watcher.go:111-117 | a file is a candidate if and only if its session id is not in the ledger |
| Watcher.SessionCandidatesOne | internal/watcher/watcher.go:113-116 | one transcript is kept exactly when its session id is unrecorded |
| Watcher.SessionCandidatesSplits | internal/watcher/watcher.go:111-117 | the candidate scan is an order-preserving filter: it works piecewise on a file list split anywhere |
| Watcher.Dispose | internal/watcher/watcher.go:126-142 | a transcript is skipped exactly when parsing fails, withheld under its id exactly when the filter drops it, and otherwise uploaded in filtered form |
| Watcher.Dispositions | internal/watcher/watcher.go:126-143 | one decision per candidate, in order |
| Watcher.Prepare | internal/watcher/watcher.go:125-143 | a session is queued if and only if some transcript's decision is to upload it; an id is withheld if and only if some decision withholds it |
| Watcher.PrepareOne | internal/watcher/watcher.go:126-143 | one transcript that fails to parse contributes nothing, one the filter withholds contributes only its id, and any other contributes only its filtered session |
| Watcher.PrepareSplits | internal/watcher/watcher.go:125-143 | the parse-and-filter loop works piecewise: the queue of a list split anywhere is the first part's queue followed by the second's, and the withheld ids are the union |
| Watcher.PlanCandidates | internal/watcher/watcher.go:205-218 | a plan file is a candidate if and only if its time can be read and its name is unseen or the file was modified after the recorded time |
| Watcher.PlanCandidatesOne | internal/watcher/watcher.go:207-217 | one plan file is kept exactly when its time can be read and its name is unrecorded or recorded with an older time |
| Watcher.PlanCandidatesSplits | internal/watcher/watcher.go:205-218 | the plan candidate scan is an order-preserving filter: it works piecewise on a file list split anywhere |
| Watcher.ParsedPlans | internal/watcher/watcher.go:227-235 | exactly the candidates that parse, and nothing else |
| Watcher.ParsedPlansOne | internal/watcher/watcher.go:228-234 | one candidate yields its plan when it parses and nothing otherwise |
| Watcher.ParsedPlansSplits | internal/watcher/watcher.go:227-235 | the plan parse loop is an order-preserving filter: it works piecewise on a candidate list split anywhere |
| Watcher.Successes | internal/watcher/watcher.go:228-235 | the plans kept from a run of parse results are exactly the successful ones, never more than the results |
| Watcher.SuccessesOne | internal/watcher/watcher.go:229-234 | one parse result yields its plan when it is one and nothing when it is an error |
| Watcher.SuccessesSplits | internal/watcher/watcher.go:228-235 | keeping the successes is an order-preserving filter: it works piecewise on a run of results split anywhere |
| Watcher.ParseAllOk | internal/watcher/watcher.go:228-233 | a plan is among the parse results if and only if some candidate parses to it |
| Watcher.SyncPlans | internal/watcher/watcher.go:191-197 | a missing plans directory makes plan sync a no-op |
| Watcher.Sync | internal/watcher/watcher.go:102-188 | a crashed pass leaves the state as it was; any other pass sets the last-sync time |
| WatcherFacts.PreparedWithheld | internal/watcher/watcher.go:133-139 | the withheld ids are exactly those of new transcripts that parse and that the filter drops |
| WatcherFacts.PreparedWithheldAmong | internal/watcher/watcher.go:126-143 | for any list of transcripts, the loop withholds exactly the ids of those that parse and that the filter drops |
| WatcherFacts.PreparedAreNew | internal/watcher/watcher.go:111-142 | nothing queued or withheld is already in the ledger |
| WatcherFacts.PreparedFromCandidates | internal/watcher/watcher.go:126-143 | the loop yields only ids of the transcripts it is given, so if none of theirs is in a key set, nothing queued or withheld is |
| WatcherFacts.PassSendsOnlyNew | internal/watcher/watcher.go:110-157 | a pass never sends a session the ledger already holds |
| WatcherFacts.PassSendsOnlyQueued | internal/watcher/watcher.go:145-177 | every session a pass sends was queued by the parse-and-filter loop |
| WatcherFacts.PassLedger | internal/watcher/watcher.go:102-188 | without a crash, the session ledger gains the withheld and the acknowledged ids, the plan ledger gains the acknowledged names, all stamped `now`, and the last-sync time is `now` |
| WatcherFacts.PassSessionLedger | internal/watcher/watcher.go:133-177 | without a crash, the session ledger is the old one with the withheld and the acknowledged ids stamped `now` |
| WatcherFacts.PlanRunLedger | internal/watcher/watcher.go:191-275 | without a crash, plan sync stamps exactly the acknowledged plan names; with no plans directory it changes nothing |
| WatcherFacts.PassPlanLedger | internal/watcher/watcher.go:181-184 | without a crash, the plan ledger after a pass is the old one with the acknowledged plan names stamped `now` |
| WatcherFacts.PassKeepsOldEntries | internal/watcher/watcher.go:114-160 | a pass removes no entry and restamps none; every new entry carries `now` |
| WatcherFacts.AtMostOnce | internal/watcher/watcher.go:110-160 | the pass after one that did not crash sends none of the sessions the earlier pass got acknowledged |
| WatcherFacts.WithheldNotReconsidered | internal/watcher/watcher.go:135-139 | a transcript the filter dropped is not a candidate in the next pass |
| WatcherFacts.UnparsedNotPrepared | internal/watcher/watcher.go:126-131 | the id of a transcript that fails to parse is neither withheld nor queued |
| WatcherFacts.UnparsedRetried | internal/watcher/watcher.go:126-131 | a transcript that fails to parse stays unrecorded and is a candidate again in the next pass |
| WatcherFacts.AllRecordedNoCandidates | internal/watcher/watcher.go:111-117 | when every transcript's id is recorded, there are no candidates |
| WatcherFacts.AllUnchangedNoCandidates | internal/watcher/watcher.go:205-218 | when no plan file is new or modified, there are no plan candidates |
| WatcherFacts.QuietPass | internal/watcher/watcher.go:119-188 | a pass with nothing new makes no request and changes only the last-sync time |
| WatcherFacts.QuietSessions | internal/watcher/watcher.go:110-121 | when every transcript's id is recorded, the session half of a pass sends nothing and leaves the ledger as it was |
| WatcherFacts.QuietPlans | internal/watcher/watcher.go:204-222 | when no plan file is new or modified, plan sync sends nothing and leaves the plan ledger as it was |
| WatcherFacts.NoAttemptsNoUploads | internal/watcher/watcher.go:156 | with retry_attempts below one, a pass makes no request but still records the withheld sessions and the pass time |
| WatcherFacts.PlanResentOnlyIfModified | internal/watcher/watcher.go:213-216 | an acknowledged plan becomes a candidate again exactly when its file is modified after the pass |
| WatcherFacts.StatsAfterPass | internal/watcher/watcher.go:349-359 | after a pass, the statistics show the pass time and ledgers at least as large as before |

## Left out

- File and network I/O are parameters of the model: reading, walking, stat, HTTP, and the JSON encoding of the state and of requests. A transcript is given as its decoded lines, and a plan file as its text and modification time.
- `Watcher.Disk` carries the parse result of each transcript as a function. `Watcher.ParserNamesFromFiles` ties that function to `Jsonl.ParseJSONL`, and the pass lemmas that need session ids to come from file names take that property as a precondition.
- The clock is one `now` reading per pass, although the code reads `time.Now()` once per marked entry. Sleeping is recorded as a backoff in each request's trace and never happens.
- The ticker loop, the stop channel and the CLI in `cmd/agent/main.go` are left out, because they are concurrency and process plumbing. The single-request client calls (`Upload`, `UploadPlan`, `Health`) are left out because the pass does not use them. Logging is left out too.
- `saveState` failures are left out. A pass that does not crash is taken to persist its state.
- The plan file's modification time is read once. The code stats the file twice (candidate selection and `ParsePlan`), and a write in between is not modelled.
- A `null` ledger in the state file is taken to decode as an empty map. Go would leave it nil and panic on the first write, which is not modelled.
- Timestamp parsing (the date-time format of section 5.6 of RFC 3339) is a given partial function. JSON decoding of lines, and the serialisation of tool input, are left out.
- Strings.ToLower: ASCII letters only. Go also lower-cases other letters, and two of them land in ASCII: the Kelvin sign becomes 'k' and the dotted capital I becomes 'i'. So a message that spells a keyword with a dotted capital I, such as "FİX", gets a topic tag from the code but not from the model.
- Glob.Match: covers literals, `*` and `?`. Character classes and escapes are left out, and `[` and `\` are treated as literal characters.
- Paths.Base: the parent directory's name is taken without `filepath.Clean`. This is exact for the clean, absolute paths a directory walk yields.
- Go's `int` is unbounded in the model. Token sums do not wrap.
- Tags.GenerateTags: tags are a set, because Go's map iteration order makes the slice order unspecified.
