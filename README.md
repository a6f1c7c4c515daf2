# Review pipeline of the orchestrator, in Dafny

This project models the pull-request review pipeline of the orchestrator. The
pipeline has four stages, each in its own module:

- **`PrMonitor`** (`pr_monitor.dfy`) waits for the Copilot and Perplexity
  reviews of a pull request. The wait loop becomes a method over a sequence of
  poll observations, proved against the function `ReviewWait`. The detection
  helpers (Copilot comment or review, Perplexity marker comment, workflow
  failure, CI check runs, human approval) become loops over the payloads the
  GitHub API returned. Each payload is either a value or a request error.
- **`ReviewParser`** (`review_parser.dfy`) turns comments into review items. It
  covers:
  - priority and category detection through the ordered keyword tables;
  - the section splitter, and the bullet, numbered and generic list parsers;
  - reviewer attribution;
  - bucketing by priority, and the blocking and deferred filters.

  Each parsing method is proved equal to a function on sequences. The lemmas
  state what those functions guarantee.
- **`PlanManager`** (`plan_manager.dfy`) builds a `RemediationPlan` class and
  performs three operations on it:
  - sorting items into five priority lists;
  - filing the deferred items as an issue whose Markdown body holds one
    checkbox task per item;
  - rendering the plan summary.
- **`MergeRecommender`** (`merge_recommender.dfy`) holds `evaluate`, a chain of
  guards:
  1. draft, reviews, blocking items, CI, approval, mergeable, then Ready;
  2. the autopilot safety conjunction;
  3. `format_decision`.

`Text` (`text.dfy`) holds the part of Python's `str` API the pipeline uses.
`Wrappers` (`wrappers.dfy`) holds `Option` and Python truthiness (`None`, `0`
and `""` are false).

Behaviour of the code worth knowing, which the model keeps:

- `evaluate` checks mergeability last, after CI and approval.
- A comment yields at least one item, and not always exactly one: a list in a
  summary comment yields one item per list entry.
- `"consider adding i18n support later"` is Low, not Deferred, because the Low
  keyword row ("consider") comes before the Deferred row ("later").
- `create_plan` drops Info items: they land in none of the plan's lists.

## Model

| member | source | states |
|---|---|---|
| Text.Take | src/planning/merge_recommender.py:157-160 | `s[:n]` is the prefix of `s` with exactly `n` characters when `s` is longer, and all of `s` otherwise |
| Text.TrimStart | src/monitoring/review_parser.py:236 | the leading half of `strip()`: the result is a suffix of the input that does not start with Python whitespace (`str.isspace()`, including U+001C to U+001F and the Unicode spaces) |
| Text.TrimStartRemovesSpace | src/monitoring/review_parser.py:236 | everything `strip()` removes in front is Python whitespace |
| Text.TrimEnd | src/monitoring/review_parser.py:236 | the trailing half of `strip()`: the result is a prefix of the input that does not end with Python whitespace |
| Text.TrimEndRemovesSpace | src/monitoring/review_parser.py:236 | everything `strip()` removes at the end is Python whitespace |
| Text.Split | src/monitoring/review_parser.py:232 | `split` always yields at least one part |
| Text.SplitPartsFree | src/monitoring/review_parser.py:232 | no part of a split contains the separator |
| Text.JoinSplit | src/monitoring/review_parser.py:398-403 | joining the parts of a split with the same separator gives the text back |
| Text.SplitJoin | src/monitoring/review_parser.py:398-403 | splitting a join of separator-free parts gives the parts back |
| Text.NatToString | src/planning/plan_manager.py:312-314 | `str(n)` of a natural number is a non-empty run of digits |
| Text.NatToStringValue | src/planning/plan_manager.py:312-314 | the digits of `str(n)` denote `n` (read most significant first by `DigitsValue`) |
| Text.IntToStringValue | src/planning/merge_recommender.py:169 | `str(n)` is the digits denoting `n` for `n >= 0`, and `-` followed by the digits denoting `-n` otherwise |
| Text.TitleFrom | src/planning/plan_manager.py:227 | `title()` keeps the length of the text |
| PrMonitor.WaitForReviews | src/monitoring/pr_monitor.py:131-206 | the loop returns `ReviewWait`. A missing pull request gives error "PR not found" with every flag false. `all_reviews_complete` implies `copilot_complete`, and once the pull request is found the two are equal. `perplexity_timeout` holds iff Perplexity neither completed nor failed. Complete and failed never hold together |
| PrMonitor.PollingMonotone | src/monitoring/pr_monitor.py:144-164 | completion and failure flags only grow while polling |
| PrMonitor.PollingAppend | src/monitoring/pr_monitor.py:142-170 | polling over more observations continues from where a shorter run stopped, and changes nothing once the loop has stopped |
| PrMonitor.SettledWaitIgnoresLaterPolls | src/monitoring/pr_monitor.py:158-170 | after a workflow failure (`break`) or both reviews (`return`), later observations change nothing |
| PrMonitor.LongerWaitKeepsCompletions | src/monitoring/pr_monitor.py:142-164 | a longer deadline never loses a completion or a failure |
| PrMonitor.FailureBeforeCopilot | src/monitoring/pr_monitor.py:152-203 | a first-poll workflow failure ends the wait before Copilot is seen: failed, nothing complete, no timeout |
| PrMonitor.PerplexitySilentTimesOut | src/monitoring/pr_monitor.py:142-203 | when Perplexity never answers, it times out, and completion follows Copilot alone |
| PrMonitor.SilentPolling | src/monitoring/pr_monitor.py:142-187 | without Perplexity answers, polling leaves Perplexity open and sets Copilot iff some poll saw it |
| PrMonitor.CheckCopilotReview | src/monitoring/pr_monitor.py:238-272 | found iff the comments were fetched and either some bot comment mentions copilot or code review, or the reviews were fetched and some review is by the bot |
| PrMonitor.PerplexityCommentIsCopilotComment | src/monitoring/pr_monitor.py:251-252 | a bot comment with the Perplexity marker also counts as a Copilot review |
| PrMonitor.CheckWorkflowStatus | src/monitoring/pr_monitor.py:324-367 | a request error is a failure. Otherwise the result is failed iff some linked Perplexity run failed with no pending linked run before it |
| PrMonitor.FirstLinkedRunDecides | src/monitoring/pr_monitor.py:336-359 | the first linked run decides the verdict when it failed or is still in progress or queued |
| PrMonitor.CheckPerplexityReview | src/monitoring/pr_monitor.py:286-313 | found iff some bot comment has the marker. Without one, failed iff the workflow check fails. A comments error gives (false, true). Never found and failed together |
| PrMonitor.IsPrApproved | src/monitoring/pr_monitor.py:426-435 | approved iff some fetched review is APPROVED by a login not ending in `[bot]` |
| PrMonitor.CheckCiStatus | src/monitoring/pr_monitor.py:475-500 | passed iff the pull request and its head SHA exist, the check runs were fetched, and every conclusion is success, neutral or skipped. An empty list passes |
| PrMonitor.GetPrStatus | src/monitoring/pr_monitor.py:446-464 | no pull request gives all flags `None`. Otherwise draft and mergeable are copied, and checks and approval are the CI and approval verdicts |
| ReviewParser.KeyIsLowerValue | src/monitoring/review_parser.py:489 | the bucket key of a priority is its lower-cased value |
| ReviewParser.FirstHit | src/monitoring/review_parser.py:326-328 | returns the first table entry with a keyword hit, and `None` iff no entry hits |
| ReviewParser.DetectPriority | src/monitoring/review_parser.py:304-331 | detection never yields Info |
| ReviewParser.DetectPriorityStages | src/monitoring/review_parser.py:313-331 | the first marker in table order wins. Without markers, the first keyword row with a hit wins. Otherwise the result is Medium |
| ReviewParser.ConsiderOutranksLater | src/monitoring/review_parser.py:70-91 | "consider … later" without earlier hits is Low, although a Deferred keyword is present |
| ReviewParser.DetectCategory | src/monitoring/review_parser.py:333-345 | returns the first category in table order with a hit, or `None` iff there is none |
| ReviewParser.CreateItem | src/monitoring/review_parser.py:270-302 | description and raw text are the text, and the reviewer is "unknown". Priority and category are detected on the lower-cased text and never Info |
| ReviewParser.BoldCategoryOf | src/monitoring/review_parser.py:435-438 | `**Cat**: desc` matches with group 1 the text between the stars and group 2 the rest after leading whitespace |
| ReviewParser.DropHashes | src/monitoring/review_parser.py:406 | the header name does not start with `#` |
| ReviewParser.SplitIntoSections | src/monitoring/review_parser.py:385-415 | the loop computes `Sections` |
| ReviewParser.SectionsContent | src/monitoring/review_parser.py:385-415 | a key exists iff some header has that lower-cased non-empty name. Its content is the `\n`-joined lines after the last such header, up to the next header |
| ReviewParser.ParseBulletList | src/monitoring/review_parser.py:417-446 | the loop yields one item per bullet line, in order |
| ReviewParser.BoldBullet | src/monitoring/review_parser.py:429-441 | `- **Cat**: desc` gives one item with description `desc` and category lower-cased `Cat` |
| ReviewParser.BoldText | src/monitoring/review_parser.py:435-438 | `**Cat**: desc` splits into `Cat` and `desc` |
| ReviewParser.ParseNumberedList | src/monitoring/review_parser.py:448-468 | the loop yields one item per numbered line, in order |
| ReviewParser.NumberedEntry | src/monitoring/review_parser.py:460-466 | `N. text` gives one item with description `text` |
| ReviewParser.Significant | src/monitoring/review_parser.py:235-238 | blank lines and `#` lines are skipped |
| ReviewParser.Groups | src/monitoring/review_parser.py:240-255 | every collected item has at least one line |
| ReviewParser.GroupsCount | src/monitoring/review_parser.py:240-252 | there is one item per list line |
| ReviewParser.NoListNoGroups | src/monitoring/review_parser.py:253-255 | without a list line, every line is dropped |
| ReviewParser.GroupItems | src/monitoring/review_parser.py:243-261 | there is one item per group |
| ReviewParser.GroupsStep | src/monitoring/review_parser.py:241-255 | a list line emits the open item and opens a new one. Any other line extends the open item, or is dropped when none is open |
| ReviewParser.FlushedLast | src/monitoring/review_parser.py:257-261 | emitting the open item at the end gives one item per group |
| ReviewParser.GenericItems | src/monitoring/review_parser.py:219-268 | always at least one item. Without list items, the whole body is one item |
| ReviewParser.ParseGenericComment | src/monitoring/review_parser.py:219-268 | the loop computes `GenericItems` |
| ReviewParser.ForceCritical | src/monitoring/review_parser.py:179-184 | the items of the 'critical' section become Critical, and nothing else changes |
| ReviewParser.PerplexityItems | src/monitoring/review_parser.py:143-190 | a Perplexity comment yields at least one item |
| ReviewParser.PerplexityUsesThreeSections | src/monitoring/review_parser.py:166-188 | only the key findings, recommendations and critical sections matter |
| ReviewParser.ParsePerplexityComment | src/monitoring/review_parser.py:143-190 | the method computes `PerplexityItems` |
| ReviewParser.CopilotItems | src/monitoring/review_parser.py:192-217 | an inline comment gives exactly one item, carrying the path and `line or original_line`. A summary comment is parsed generically |
| ReviewParser.ParseCopilotComment | src/monitoring/review_parser.py:192-217 | the method computes `CopilotItems` |
| ReviewParser.WithReviewer | src/monitoring/review_parser.py:135-136 | setting the reviewer keeps the number of items |
| ReviewParser.CommentItemsAttributed | src/monitoring/review_parser.py:119-138 | every comment yields at least one item, each carrying the comment's reviewer |
| ReviewParser.MarkerNeedsActionsBot | src/monitoring/review_parser.py:120-132 | a marker from any other login is parsed generically, as a bot or a human |
| ReviewParser.AllItemsAtLeastOnePerComment | src/monitoring/review_parser.py:114-141 | there are at least as many items as comments |
| ReviewParser.AllItemsAppend | src/monitoring/review_parser.py:114-141 | items keep comment order |
| ReviewParser.RouteComment | src/monitoring/review_parser.py:119-132 | the reviewer is chosen by login and marker, and the comment goes to the matching parser |
| ReviewParser.ParseAllComments | src/monitoring/review_parser.py:103-141 | the loop computes `AllItems` |
| ReviewParser.WithPriority | src/monitoring/review_parser.py:488-491 | exactly the items of that priority |
| ReviewParser.WithPriorityAppend | src/monitoring/review_parser.py:488-491 | filtering keeps input order |
| ReviewParser.BucketsPartition | src/monitoring/review_parser.py:479-493 | each item is in its own bucket as often as in the input, and in no other bucket |
| ReviewParser.CategorizeItems | src/monitoring/review_parser.py:470-493 | the loop computes `Buckets` |
| ReviewParser.BucketsStep | src/monitoring/review_parser.py:488-491 | one item is appended to the bucket of its key |
| ReviewParser.PriorityKeyIn | src/monitoring/review_parser.py:489-490 | the `key in categorized` test always passes |
| ReviewParser.KeyInjective | src/monitoring/review_parser.py:479-489 | distinct priorities have distinct keys |
| ReviewParser.BucketsByPriority | src/monitoring/review_parser.py:479-493 | there are six keys, and each bucket holds exactly its priority's items, in order |
| ReviewParser.BlockingItems | src/monitoring/review_parser.py:495-504 | exactly the Critical and High items |
| ReviewParser.BlockingItemsAppend | src/monitoring/review_parser.py:504 | the filter keeps input order |
| ReviewParser.BlockingIsCriticalAndHigh | src/monitoring/review_parser.py:41-43 | the blocking items are as many as the Critical and High items, and empty iff both are |
| ReviewParser.DeferredItems | src/monitoring/review_parser.py:506-515 | exactly the Deferred items |
| PlanManager.RemediationPlan.constructor | src/planning/plan_manager.py:21-31 | a new plan has empty lists and no issue number |
| PlanManager.RemediationPlan.TotalItems | src/planning/plan_manager.py:37-45 | the total is the actionable items plus the deferred ones |
| PlanManager.RemediationPlan.ActionableItems | src/planning/plan_manager.py:47-54 | actionable means in the critical, high, medium or low list |
| PlanManager.SortedPlanItems | src/planning/plan_manager.py:33-54 | a sorted plan's actionable items are never Deferred or Info. It blocks iff one of them is blocking |
| PlanManager.SortByPriority | src/planning/plan_manager.py:116-126 | each list is the input's items of that priority, in order |
| PlanManager.CreatePlan | src/planning/plan_manager.py:98-134 | the plan holds sorted buckets. Its total counts the non-Info inputs, and it blocks iff some input blocks |
| PlanManager.PlanOfItems | src/planning/plan_manager.py:116-126 | priority buckets make a sorted plan that counts the non-Info items and blocks on Critical or High |
| PlanManager.PartitionSizes | src/planning/plan_manager.py:116-126 | the six buckets together hold every item once |
| PlanManager.PlanBlocking | src/planning/plan_manager.py:33-35 | non-empty critical or high lists iff some item is blocking |
| PlanManager.InCategory | src/planning/plan_manager.py:217-221 | exactly the items filed under that category |
| PlanManager.Uncategorized | src/planning/plan_manager.py:222-223 | exactly the items without a category |
| PlanManager.CategoriesDistinct | src/planning/plan_manager.py:219-220 | no category group is opened twice |
| PlanManager.CategoriesListed | src/planning/plan_manager.py:217-221 | a group exists iff some item is filed under it |
| PlanManager.CategoriesPrefix | src/planning/plan_manager.py:214-226 | groups appear in first-seen order |
| PlanManager.Location | src/planning/plan_manager.py:232-236 | the suffix is present iff the file is truthy. It starts with `` (in `file` `` and ends with `)`, and it is exactly `` (in `file`) `` when the line is not truthy |
| PlanManager.ItemLines | src/planning/plan_manager.py:229-237 | one task line per item |
| PlanManager.AppendItemLines | src/planning/plan_manager.py:229-237 | the loop appends one task line per item, in order |
| PlanManager.GroupByCategory | src/planning/plan_manager.py:213-223 | categories come in first-seen order, each group holds its items in order, and the rest are uncategorized |
| PlanManager.AppendCategoryBlocks | src/planning/plan_manager.py:226-238 | the loop appends one block per category, in the dictionary's order |
| PlanManager.AppendCategoryBlock | src/planning/plan_manager.py:227-238 | appends a heading, the tasks and a blank line |
| PlanManager.BuildDeferredIssueBody | src/planning/plan_manager.py:190-276 | the method computes `DeferredIssueBody` |
| PlanManager.ItemLinesAreTasks | src/planning/plan_manager.py:237 | every item line is a `- [ ] ` task |
| PlanManager.CategoryBlocksTasks | src/planning/plan_manager.py:226-238 | the category blocks hold one task per grouped item |
| PlanManager.GroupingCovers | src/planning/plan_manager.py:213-223 | grouping loses no item and files none twice |
| PlanManager.HeaderHasNoTasks | src/planning/plan_manager.py:206-211 | the header holds no task line |
| PlanManager.OtherBlockTasks | src/planning/plan_manager.py:241-253 | "Other Tasks" holds one task per uncategorized item |
| PlanManager.ContextHasNoTasks | src/planning/plan_manager.py:256-274 | the context block holds no task line |
| PlanManager.DeferredIssueTaskCount | src/planning/plan_manager.py:206-276 | the issue body holds exactly one task per deferred item |
| PlanManager.ContextNamesOriginalIssue | src/planning/plan_manager.py:256-264 | the original issue is listed once iff its number is truthy |
| PlanManager.CreateDeferredIssue | src/planning/plan_manager.py:152-188 | no deferred items gives no request and `None`. A successful request stores the number and links it. A failed request gives `None` and leaves the plan as it was |
| PlanManager.BlockerLines | src/planning/plan_manager.py:320-321 | one line per blocking item, line `k` being `  - ` plus the first 80 characters of item `k`'s description plus `...` |
| PlanManager.AppendBlockerLines | src/planning/plan_manager.py:320-321 | the loop appends them in order |
| PlanManager.AppendCountBlock | src/planning/plan_manager.py:318-336 | appends one count block |
| PlanManager.AppendDeferredBlock | src/planning/plan_manager.py:338-342 | appends the deferred count and the issue number only when it is set |
| PlanManager.GetPlanSummary | src/planning/plan_manager.py:302-349 | the method computes the `\n`-joined `SummaryLines` |
| PlanManager.SummaryVerdict | src/planning/plan_manager.py:344-347 | the summary ends with the blocking warning iff the plan blocks, and with "No blocking items" otherwise |
| PlanManager.BlockerLinesAreBullets | src/planning/plan_manager.py:321 | every blocker line is a `  - ` bullet |
| PlanManager.CountBlockBullets | src/planning/plan_manager.py:318-336 | a count block's bullets are its itemised lines, and none when it only counts |
| PlanManager.SummaryItemisesBlockers | src/planning/plan_manager.py:318-347 | the summary's bullets are the critical items, then the high items, each cut to 80 characters plus `...`. Medium, low and deferred are counted only |
| MergeRecommender.Gate.Readiness | src/planning/merge_recommender.py:120-251 | only passing every guard gives Ready. Blocked comes from blocking items or from merge conflicts |
| MergeRecommender.Recommender.Evaluate | src/planning/merge_recommender.py:95-251 | readiness is that of the first failing guard, and ready iff Ready. Ready has no blocking items and reason "All requirements met". Autopilot implies ready and autopilot mode |
| MergeRecommender.GateReadiness | src/planning/merge_recommender.py:120-251 | each readiness holds iff its guard fails and every earlier guard passes |
| MergeRecommender.PendingReasons | src/planning/merge_recommender.py:131-138 | one reason phrase per pending entry |
| MergeRecommender.Labelled | src/planning/merge_recommender.py:156-160 | one entry per item: the tag, then the description cut to 60 characters |
| MergeRecommender.NotReadyNamesBlocker | src/planning/merge_recommender.py:120-216 | every decision other than Ready or WaitingReviews names a blocking item |
| MergeRecommender.WaitingReviewsEntries | src/planning/merge_recommender.py:131-147 | the Copilot entry appears iff Copilot is incomplete. The Perplexity entry appears iff Perplexity is neither complete nor failed. The reason is the `, `-joined phrases, empty iff there are no entries |
| MergeRecommender.BlockedByReview | src/planning/merge_recommender.py:150-172 | the blocking list is `CRITICAL: ` plus the first 60 characters of each critical item, then `HIGH: ` for each high item. The reason counts them |
| MergeRecommender.UnknownFlagsAreFalse | src/planning/merge_recommender.py:205-216 | an unknown draft flag is not a draft. An unknown mergeable state blocks with "PR has merge conflicts" |
| MergeRecommender.AutopilotIsSafe | src/planning/merge_recommender.py:236-287 | autopilot holds iff the decision is ready, autopilot mode is on and the conjunction holds. Then both reviews, checks, approval and mergeability really hold, whatever the recommender requires |
| MergeRecommender.PerplexityFailureDisqualifies | src/planning/merge_recommender.py:270-272 | a Perplexity review that failed or timed out rules autopilot out |
| MergeRecommender.ReadyRecommendationOrder | src/planning/merge_recommender.py:219-241 | Ready recommendations come in order: all-passed, the deferred count if any, the low/medium count if any, and the autopilot line iff autopilot |
| MergeRecommender.Bulleted | src/planning/merge_recommender.py:324-325 | each entry becomes one bullet line, in order |
| MergeRecommender.FormatShowsReadiness | src/planning/merge_recommender.py:313-316 | the status line reads READY TO MERGE iff the decision is ready, and NOT READY with the upper-cased readiness otherwise |
| MergeRecommender.SectionBullets | src/planning/merge_recommender.py:322-333 | a section's bullets are exactly its entries |
| MergeRecommender.BulletedAreBullets | src/planning/merge_recommender.py:324-325 | every bulleted line starts with the bullet |
| MergeRecommender.FormatListsEntries | src/planning/merge_recommender.py:296-342 | the formatted decision's bullets are the blocking items, then the recommendations |

## Left out

- HTTP requests become parameters: each response is a payload or a request error. Headers, URLs, timeouts and the JSON decoding are not modelled.
- The clock, `time.sleep` and the poll interval are left out. `wait_for_reviews` takes one observation per iteration that starts before the deadline, so the deadline is the length of that sequence.
- The review timestamps and the logging calls are not modelled.
- PrMonitor.WaitForReviews: the branch at pr_monitor.py:173-176 is unreachable, because a workflow failure has already left the loop at line 164. The model has no such branch.
- The pull-request lookup `_get_pr` is a parameter holding the pull request or nothing. `get_pr_status` of a missing pull request returns a dictionary without flags; it is modelled as a status whose flags are all `None`.
- `get_pr_status` fields that the evaluator never reads (state, title, dates, mergeable_state) are omitted.
- `get_pr_reviews` and `get_pr_comments` are only fetches; their results are the payload parameters.
- ReviewParser.CreateItem: the regular expressions of `_extract_file_reference` and `_extract_suggestion` are uninterpreted function parameters. Nothing is proved about file, line or suggestion beyond where they come from.
- Case mapping (`lower`, `upper`, `title`) covers ASCII letters only. The source's own marker, emoji and keywords are ASCII or passed through unchanged. Whitespace is Python's full `str.isspace()` set, so `strip()` and `\s` agree with Python.
- Text.IsDigit: only `0`-`9` are digits. Python's `\d` in the list patterns at review_parser.py:241 and :462 also matches the other Unicode decimal digits (Arabic-Indic `٣`, say), so such a line is a list item in Python but not in the model.
- `to_dict` of every record and the dataclass defaults not read by the pipeline are not modelled.
- `ReviewerType` is not modelled.
- The `created_at` timestamp is the string `strftime` renders.
- Python dictionaries are modelled as maps. Where their insertion order matters (the category groups of the deferred issue), the order is a separate sequence of keys.
- `PlanManager.__init__`, `MergeRecommender.__init__` and the GitHub configuration are not modelled. The recommender's flags are a datatype.
- Of `_link_deferred_issue_to_pr`, only the comment text is modelled; the outcome of its request is left out.
- `MergeRecommender` asks its monitor for the pull request's status; the model takes that status as the parameter `pr`.
- The emoji in `merge_recommender.py` appear in the source text as mis-decoded characters. The constants keep those code points verbatim.
- The example blocks at the end of the source files are not modelled.
