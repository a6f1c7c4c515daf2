/**
 * The review-wait coordinator (src/monitoring/pr_monitor.py): it polls a pull
 * request until the Copilot and Perplexity reviews are seen, the Perplexity
 * workflow fails or the deadline passes, and it derives the flags of a
 * `ReviewStatus`.  The detection helpers are modelled over the payloads that the
 * GitHub API returned; each request is either a payload or a request error.
 */
module PrMonitor {
  import opened Wrappers
  import opened Text

  /** The bot account both automated reviewers post under. */
  const ActionsBot := "github-actions[bot]"

  /** The Perplexity marker exactly as pr_monitor.py spells it (a mis-decoded magnifier emoji). */
  const MonitorPerplexityMarker := "\U{F0}\U{178}\U{201D} Perplexity Code Review"

  /** The workflow name of the Perplexity review job. */
  const PerplexityWorkflow := "Perplexity Code Review"

  /** The outcome of one HTTP request: its decoded payload, or a request exception. */
  datatype Response<T> = Ok(value: T) | RequestError

  // ---------------------------------------------------------------------------
  // Fetched payloads (only the fields the monitor reads)
  // ---------------------------------------------------------------------------

  /** An issue comment: `user.login` (empty when missing) and `body`. */
  datatype Comment = Comment(login: string, body: string)

  /** A pull-request review: `user.login` (empty when missing) and `state`. */
  datatype Review = Review(login: string, state: string)

  /** A workflow run: its name, the numbers of its linked pull requests, `status` and `conclusion`. */
  datatype WorkflowRun = WorkflowRun(
    name: string,
    pullRequests: seq<int>,
    status: Option<string>,
    conclusion: Option<string>)

  /** A check run of the head commit. */
  datatype CheckRun = CheckRun(name: string, conclusion: Option<string>)

  /** The pull-request fields the monitor reads. */
  datatype PullRequest = PullRequest(
    draft: Option<bool>,
    mergeable: Option<bool>,
    headSha: Option<string>)

  /**
   * What `get_pr_status` hands to the merge evaluator.  Every flag is optional:
   * when the pull request is not found the source returns a dictionary without
   * these keys, and `None` reads as false.
   */
  datatype PrStatus = PrStatus(
    draft: Option<bool>,
    mergeable: Option<bool>,
    checksPassed: Option<bool>,
    approved: Option<bool>)

  // ---------------------------------------------------------------------------
  // Review status and the wait loop
  // ---------------------------------------------------------------------------

  datatype ReviewStatus = ReviewStatus(
    prNumber: int,
    copilotComplete: bool,
    perplexityComplete: bool,
    perplexityFailed: bool,
    perplexityTimeout: bool,
    allReviewsComplete: bool,
    error: Option<string>)

  /** `ReviewStatus(pr_number=...)` with every default. */
  function NewStatus(prNumber: int): ReviewStatus
  {
    ReviewStatus(prNumber, false, false, false, false, false, None)
  }

  /**
   * What one iteration of the wait loop observes: whether the Copilot check found
   * a review, and the pair (found, workflow failed) the Perplexity check returned.
   * A source that is already complete is not re-polled, so its part is ignored.
   */
  datatype Poll = Poll(copilotFound: bool, perplexityFound: bool, workflowFailed: bool)

  /** The flag updates of one loop iteration. */
  function Observe(s: ReviewStatus, o: Poll): ReviewStatus
  {
    var s1 := if !s.copilotComplete && o.copilotFound then s.(copilotComplete := true) else s;
    if s1.perplexityComplete then s1
    else if o.perplexityFound then s1.(perplexityComplete := true)
    else if o.workflowFailed then s1.(perplexityFailed := true)
    else s1
  }

  /** A status on which the loop stops: the workflow failed, or both reviews are in. */
  predicate Settled(s: ReviewStatus)
  {
    s.perplexityFailed || (s.copilotComplete && s.perplexityComplete)
  }

  /** The status when the loop stops, after at most one iteration per poll. */
  function Polling(s: ReviewStatus, polls: seq<Poll>): ReviewStatus
    decreases |polls|
  {
    if polls == [] then s
    else
      var t := Observe(s, polls[0]);
      if Settled(t) then t else Polling(t, polls[1..])
  }

  /** The flags derived once the loop is left. */
  function Conclude(s: ReviewStatus): ReviewStatus
  {
    s.(perplexityTimeout := !s.perplexityComplete && !s.perplexityFailed,
       allReviewsComplete := s.copilotComplete)
  }

  /**
   * The status `wait_for_reviews` returns when the pull-request lookup succeeded
   * (`prFound`) and the iterations the deadline admits observe `polls`.
   */
  function ReviewWait(prNumber: int, prFound: bool, polls: seq<Poll>): ReviewStatus
  {
    if !prFound then NewStatus(prNumber).(error := Some("PR not found"))
    else Conclude(Polling(NewStatus(prNumber), polls))
  }

  /**
   * `wait_for_reviews`.  The clock is abstracted: `polls` holds one observation
   * for each iteration that starts before the deadline, in order.
   */
  method WaitForReviews(prNumber: int, prFound: bool, polls: seq<Poll>) returns (status: ReviewStatus)
    ensures status == ReviewWait(prNumber, prFound, polls)
    ensures status.prNumber == prNumber
    ensures !prFound ==> status.error == Some("PR not found") && !status.copilotComplete
                         && !status.perplexityComplete && !status.perplexityFailed
                         && !status.perplexityTimeout && !status.allReviewsComplete
    ensures prFound ==> status.error == None
    ensures status.allReviewsComplete ==> status.copilotComplete
    ensures prFound ==> status.allReviewsComplete == status.copilotComplete
    ensures status.perplexityTimeout <==> prFound && !status.perplexityComplete && !status.perplexityFailed
    ensures !(status.perplexityComplete && status.perplexityFailed)
  {
    status := NewStatus(prNumber);
    if !prFound {
      status := status.(error := Some("PR not found"));
      return;
    }
    var i := 0;
    while i < |polls|
      invariant 0 <= i <= |polls|
      invariant status.prNumber == prNumber && status.error == None
      invariant !status.perplexityTimeout && !status.allReviewsComplete
      invariant !Settled(status)
      invariant Polling(status, polls[i..]) == Polling(NewStatus(prNumber), polls)
    {
      ghost var before := status;
      assert polls[i..][0] == polls[i] && polls[i..][1..] == polls[i + 1..];
      var observed := polls[i];
      if !status.copilotComplete {
        if observed.copilotFound {
          status := status.(copilotComplete := true);
        }
      }
      if !status.perplexityComplete {
        if observed.perplexityFound {
          status := status.(perplexityComplete := true);
        } else if observed.workflowFailed {
          status := status.(perplexityFailed := true);
          break;
        }
      }
      if status.copilotComplete && status.perplexityComplete {
        status := status.(allReviewsComplete := true);
        return;
      }
      i := i + 1;
    }
    if !status.perplexityComplete && !status.perplexityFailed {
      status := status.(perplexityTimeout := true);
    }
    if status.copilotComplete {
      status := status.(allReviewsComplete := true);
    }
  }

  /** The flags that record completion or failure. */
  predicate FlagsAtLeast(s: ReviewStatus, t: ReviewStatus)
  {
    (t.copilotComplete ==> s.copilotComplete)
    && (t.perplexityComplete ==> s.perplexityComplete)
    && (t.perplexityFailed ==> s.perplexityFailed)
  }

  /** Completion flags only grow while polling: a flag once set is never reset. */
  lemma {:induction false} PollingMonotone(s: ReviewStatus, polls: seq<Poll>)
    ensures FlagsAtLeast(Polling(s, polls), s)
    decreases |polls|
  {
    if polls != [] {
      var t := Observe(s, polls[0]);
      if !Settled(t) {
        PollingMonotone(t, polls[1..]);
      }
    }
  }

  /** Polling over more observations continues from where the shorter run left off. */
  lemma {:induction false} PollingAppend(s: ReviewStatus, polls: seq<Poll>, more: seq<Poll>)
    requires !Settled(s)
    ensures Settled(Polling(s, polls)) ==> Polling(s, polls + more) == Polling(s, polls)
    ensures !Settled(Polling(s, polls)) ==> Polling(s, polls + more) == Polling(Polling(s, polls), more)
    decreases |polls|
  {
    if polls == [] {
      assert polls + more == more;
    } else {
      var t := Observe(s, polls[0]);
      assert (polls + more)[0] == polls[0];
      assert (polls + more)[1..] == polls[1..] + more;
      if !Settled(t) {
        PollingAppend(t, polls[1..], more);
      }
    }
  }

  /**
   * Once the loop has stopped (a Perplexity failure breaks out, both reviews
   * return), further observations change nothing: polling stops immediately.
   */
  lemma SettledWaitIgnoresLaterPolls(prNumber: int, polls: seq<Poll>, more: seq<Poll>)
    requires Settled(ReviewWait(prNumber, true, polls))
    ensures ReviewWait(prNumber, true, polls + more) == ReviewWait(prNumber, true, polls)
  {
    PollingAppend(NewStatus(prNumber), polls, more);
  }

  /** A longer deadline never loses a completion or a failure. */
  lemma LongerWaitKeepsCompletions(prNumber: int, polls: seq<Poll>, more: seq<Poll>)
    ensures FlagsAtLeast(ReviewWait(prNumber, true, polls + more), ReviewWait(prNumber, true, polls))
  {
    var s := NewStatus(prNumber);
    PollingAppend(s, polls, more);
    if !Settled(Polling(s, polls)) {
      PollingMonotone(Polling(s, polls), more);
    }
  }

  /**
   * A failure on the first poll stops the wait even when Copilot has not been
   * seen: later observations of both reviews are never made.
   */
  lemma FailureBeforeCopilot(prNumber: int, later: seq<Poll>)
    ensures var r := ReviewWait(prNumber, true, [Poll(false, false, true)] + later);
            r.perplexityFailed && !r.copilotComplete && !r.allReviewsComplete
            && !r.perplexityComplete && !r.perplexityTimeout
  {
    var s := NewStatus(prNumber);
    var first := [Poll(false, false, true)] + later;
    assert first[0] == Poll(false, false, true);
    assert Settled(Observe(s, first[0]));
  }

  /** When Perplexity never answers, the wait times out on it, and Copilot alone decides completion. */
  lemma {:induction false} PerplexitySilentTimesOut(prNumber: int, polls: seq<Poll>)
    requires forall i :: 0 <= i < |polls| ==> !polls[i].perplexityFound && !polls[i].workflowFailed
    ensures var r := ReviewWait(prNumber, true, polls);
            r.perplexityTimeout && !r.perplexityComplete && !r.perplexityFailed
            && (r.copilotComplete <==> exists i :: 0 <= i < |polls| && polls[i].copilotFound)
            && r.allReviewsComplete == r.copilotComplete
  {
    SilentPolling(NewStatus(prNumber), polls);
  }

  lemma {:induction false} SilentPolling(s: ReviewStatus, polls: seq<Poll>)
    requires !s.perplexityComplete && !s.perplexityFailed
    requires forall i :: 0 <= i < |polls| ==> !polls[i].perplexityFound && !polls[i].workflowFailed
    ensures var r := Polling(s, polls);
            !r.perplexityComplete && !r.perplexityFailed
            && (r.copilotComplete <==> s.copilotComplete || exists i :: 0 <= i < |polls| && polls[i].copilotFound)
    decreases |polls|
  {
    if polls != [] {
      var t := Observe(s, polls[0]);
      SilentPolling(t, polls[1..]);
      if exists i :: 0 <= i < |polls| && polls[i].copilotFound {
        var i :| 0 <= i < |polls| && polls[i].copilotFound;
        if i > 0 {
          assert polls[1..][i - 1].copilotFound;
        }
      }
      if exists i :: 0 <= i < |polls[1..]| && polls[1..][i].copilotFound {
        var i :| 0 <= i < |polls[1..]| && polls[1..][i].copilotFound;
        assert polls[i + 1].copilotFound;
      }
    }
  }

  // ---------------------------------------------------------------------------
  // Detection helpers
  // ---------------------------------------------------------------------------

  /** A bot comment whose lower-cased body mentions Copilot or a code review. */
  predicate IsCopilotComment(c: Comment)
  {
    c.login == ActionsBot
    && (Contains(Lower(c.body), "copilot") || Contains(Lower(c.body), "code review"))
  }

  /**
   * `_check_copilot_review`: the comment list is searched first; the reviews are
   * consulted only when no comment matched.  A request error means "not found".
   */
  method CheckCopilotReview(comments: Response<seq<Comment>>, reviews: Response<seq<Review>>)
    returns (found: bool)
    ensures found <==>
      comments.Ok?
      && ((exists i :: 0 <= i < |comments.value| && IsCopilotComment(comments.value[i]))
          || (reviews.Ok? && exists j :: 0 <= j < |reviews.value| && reviews.value[j].login == ActionsBot))
  {
    if comments.RequestError? {
      return false;
    }
    var cs := comments.value;
    for i := 0 to |cs|
      invariant forall k :: 0 <= k < i ==> !IsCopilotComment(cs[k])
    {
      if IsCopilotComment(cs[i]) {
        return true;
      }
    }
    if reviews.RequestError? {
      return false;
    }
    var rs := reviews.value;
    for j := 0 to |rs|
      invariant forall k :: 0 <= k < j ==> rs[k].login != ActionsBot
    {
      if rs[j].login == ActionsBot {
        return true;
      }
    }
    return false;
  }

  /** A bot comment holding the Perplexity marker (as pr_monitor.py spells it) also counts as a Copilot review. */
  lemma PerplexityCommentIsCopilotComment(c: Comment)
    requires c.login == ActionsBot && Contains(c.body, MonitorPerplexityMarker)
    ensures IsCopilotComment(c)
  {
    var m := MonitorPerplexityMarker;
    assert OccursAt(m, "Code Review", 15);
    ContainsLower(c.body, m);
    assert Lower("Code Review") == "code review";
    assert Contains(Lower(m), "code review") by {
      assert Lower(m)[15..26] == Lower(m[15..26]);
      assert OccursAt(Lower(m), "code review", 15);
    }
    ContainsTransitive(Lower(c.body), Lower(m), "code review");
  }

  /** A bot comment holding the Perplexity marker. */
  predicate IsPerplexityComment(c: Comment)
  {
    c.login == ActionsBot && Contains(c.body, MonitorPerplexityMarker)
  }

  /** A run of the Perplexity workflow linked to pull request `pr`. */
  predicate IsLinkedRun(run: WorkflowRun, pr: int)
  {
    run.name == PerplexityWorkflow && pr in run.pullRequests
  }

  predicate HasFailedConclusion(run: WorkflowRun)
  {
    run.conclusion == Some("failure") || run.conclusion == Some("cancelled")
    || run.conclusion == Some("timed_out")
  }

  predicate IsPending(run: WorkflowRun)
  {
    run.status == Some("in_progress") || run.status == Some("queued")
  }

  /**
   * Run `i` reports the failure: it is a linked run with a failed conclusion,
   * and no earlier linked run was still pending (which would have ended the scan).
   */
  ghost predicate FailureReportedAt(runs: seq<WorkflowRun>, pr: int, i: int)
  {
    0 <= i < |runs| && IsLinkedRun(runs[i], pr) && HasFailedConclusion(runs[i])
    && forall j :: 0 <= j < i && IsLinkedRun(runs[j], pr) ==> !IsPending(runs[j])
  }

  /**
   * `_check_workflow_status`: scan the recent runs; a linked run with a failed
   * conclusion reports failure, a linked run still in progress or queued reports
   * no failure, others are skipped.  A request error counts as a failure.
   */
  method CheckWorkflowStatus(pr: int, runs: Response<seq<WorkflowRun>>) returns (failed: bool)
    ensures runs.RequestError? ==> failed
    ensures runs.Ok? ==> (failed <==> exists i :: FailureReportedAt(runs.value, pr, i))
  {
    if runs.RequestError? {
      return true;
    }
    var rs := runs.value;
    for i := 0 to |rs|
      invariant forall k :: 0 <= k < i && IsLinkedRun(rs[k], pr) ==> !HasFailedConclusion(rs[k]) && !IsPending(rs[k])
    {
      if rs[i].name == PerplexityWorkflow && pr in rs[i].pullRequests {
        if HasFailedConclusion(rs[i]) {
          assert FailureReportedAt(rs, pr, i);
          return true;
        }
        if IsPending(rs[i]) {
          forall k ensures !FailureReportedAt(rs, pr, k) {
            if k > i {
              assert IsLinkedRun(rs[i], pr) && IsPending(rs[i]);
            }
          }
          return false;
        }
      }
    }
    return false;
  }

  /** The first linked run decides the verdict whenever it failed or is still pending. */
  lemma FirstLinkedRunDecides(runs: seq<WorkflowRun>, pr: int, i: int)
    requires 0 <= i < |runs| && IsLinkedRun(runs[i], pr)
    requires forall j :: 0 <= j < i ==> !IsLinkedRun(runs[j], pr)
    requires HasFailedConclusion(runs[i]) || IsPending(runs[i])
    ensures (exists k :: FailureReportedAt(runs, pr, k)) <==> HasFailedConclusion(runs[i])
  {
    if HasFailedConclusion(runs[i]) {
      assert FailureReportedAt(runs, pr, i);
    } else {
      forall k ensures !FailureReportedAt(runs, pr, k) {
        if k > i {
          assert IsLinkedRun(runs[i], pr) && IsPending(runs[i]);
        }
      }
    }
  }

  /**
   * `_check_perplexity_review`: returns (found, failed).  The workflow is checked
   * only when no marker comment is found; a request error on the comments
   * counts as a failure.
   */
  method CheckPerplexityReview(pr: int, comments: Response<seq<Comment>>, runs: Response<seq<WorkflowRun>>)
    returns (found: bool, failed: bool)
    ensures comments.RequestError? ==> !found && failed
    ensures comments.Ok? ==> (found <==> exists i :: 0 <= i < |comments.value| && IsPerplexityComment(comments.value[i]))
    ensures comments.Ok? && !found ==>
      (failed <==> runs.RequestError? || exists i :: FailureReportedAt(runs.value, pr, i))
    ensures !(found && failed)
  {
    if comments.RequestError? {
      return false, true;
    }
    var cs := comments.value;
    for i := 0 to |cs|
      invariant forall k :: 0 <= k < i ==> !IsPerplexityComment(cs[k])
    {
      if cs[i].login == ActionsBot && Contains(cs[i].body, MonitorPerplexityMarker) {
        return true, false;
      }
    }
    var workflowFailed := CheckWorkflowStatus(pr, runs);
    if workflowFailed {
      return false, true;
    }
    return false, false;
  }

  /** A human approval: state APPROVED from a login that is not a bot. */
  predicate IsHumanApproval(r: Review)
  {
    r.state == "APPROVED" && !EndsWith(r.login, "[bot]")
  }

  /** `is_pr_approved`; a failed fetch yields no reviews. */
  method IsPrApproved(reviews: Response<seq<Review>>) returns (approved: bool)
    ensures approved <==> reviews.Ok? && exists i :: 0 <= i < |reviews.value| && IsHumanApproval(reviews.value[i])
  {
    var rs := if reviews.Ok? then reviews.value else [];
    for i := 0 to |rs|
      invariant forall k :: 0 <= k < i ==> !IsHumanApproval(rs[k])
    {
      if rs[i].state == "APPROVED" && !EndsWith(rs[i].login, "[bot]") {
        return true;
      }
    }
    return false;
  }

  predicate IsPassingConclusion(c: Option<string>)
  {
    c == Some("success") || c == Some("neutral") || c == Some("skipped")
  }

  /**
   * `_check_ci_status`: `pr` is its own lookup of the pull request and
   * `checkRuns` the check runs of the head commit.
   */
  method CheckCiStatus(pr: Option<PullRequest>, checkRuns: Response<seq<CheckRun>>) returns (passed: bool)
    ensures passed <==>
      pr.Some? && TruthyString(pr.value.headSha) && checkRuns.Ok?
      && forall i :: 0 <= i < |checkRuns.value| ==> IsPassingConclusion(checkRuns.value[i].conclusion)
  {
    if pr.None? {
      return false;
    }
    if !TruthyString(pr.value.headSha) {
      return false;
    }
    if checkRuns.RequestError? {
      return false;
    }
    var runs := checkRuns.value;
    for i := 0 to |runs|
      invariant forall k :: 0 <= k < i ==> IsPassingConclusion(runs[k].conclusion)
    {
      if !IsPassingConclusion(runs[i].conclusion) {
        return false;
      }
    }
    return true;
  }

  /**
   * `get_pr_status`: `pr` is the first lookup; `ciPr`, `checkRuns` and `reviews`
   * are the payloads of the requests made by the CI and approval checks.
   */
  method GetPrStatus(pr: Option<PullRequest>, ciPr: Option<PullRequest>,
                     checkRuns: Response<seq<CheckRun>>, reviews: Response<seq<Review>>)
    returns (status: PrStatus)
    ensures pr.None? ==> status == PrStatus(None, None, None, None)
    ensures pr.Some? ==> status.draft == pr.value.draft && status.mergeable == pr.value.mergeable
    ensures pr.Some? ==> status.checksPassed.Some? && status.approved.Some?
    ensures pr.Some? ==> (status.checksPassed.value <==>
      ciPr.Some? && TruthyString(ciPr.value.headSha) && checkRuns.Ok?
      && forall i :: 0 <= i < |checkRuns.value| ==> IsPassingConclusion(checkRuns.value[i].conclusion))
    ensures pr.Some? ==> (status.approved.value <==>
      reviews.Ok? && exists i :: 0 <= i < |reviews.value| && IsHumanApproval(reviews.value[i]))
  {
    if pr.None? {
      return PrStatus(None, None, None, None);
    }
    var checksPassed := CheckCiStatus(ciPr, checkRuns);
    var approved := IsPrApproved(reviews);
    status := PrStatus(pr.value.draft, pr.value.mergeable, Some(checksPassed), Some(approved));
  }
}
