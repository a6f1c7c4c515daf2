/**
 * The merge-readiness evaluator: a fixed chain of guards over the pull
 * request's status, the review status and the remediation plan, the
 * autopilot safety conjunction, and the text rendering of a decision.
 */
module MergeRecommender {
  import opened Wrappers
  import opened Text
  import ReviewParser
  import PrMonitor
  import PlanManager

  datatype MergeReadiness = Ready | Blocked | WaitingReviews | WaitingCi | WaitingApproval | Draft
  {
    /** The enumeration's string value. */
    function Value(): string
    {
      match this
      case Ready => "ready"
      case Blocked => "blocked"
      case WaitingReviews => "waiting_reviews"
      case WaitingCi => "waiting_ci"
      case WaitingApproval => "waiting_approval"
      case Draft => "draft"
    }
  }

  datatype MergeDecision = MergeDecision(
    prNumber: int,
    readyToMerge: bool,
    readiness: MergeReadiness,
    reason: string,
    blockingItems: seq<string>,
    recommendations: seq<string>,
    autopilotRecommended: bool)

  /** The guards of `evaluate`, in the order they are tried; `Passed` when none stops the pull request. */
  datatype Gate = DraftGate | ReviewsGate | BlockersGate | CiGate | ApprovalGate | ConflictGate | Passed
  {
    /** The readiness a decision stopped at this guard reports. */
    function Readiness(): (m: MergeReadiness)
      ensures m == Ready <==> this == Passed
      ensures m == Blocked <==> this == BlockersGate || this == ConflictGate
    {
      match this
      case DraftGate => Draft
      case ReviewsGate => WaitingReviews
      case BlockersGate => Blocked
      case CiGate => WaitingCi
      case ApprovalGate => WaitingApproval
      case ConflictGate => Blocked
      case Passed => Ready
    }
  }

  /** The recommender's constructor flags; the monitor it holds is only asked for the pull request's status. */
  datatype Recommender = Recommender(requireHumanApproval: bool, requireCiPass: bool, autopilotMode: bool)
  {
    /**
     * The first guard of `evaluate` that stops the pull request. `pr` is what
     * `get_pr_status` returned for the pull request; a missing flag is `None`.
     */
    function FirstFailedGate(status: PrMonitor.ReviewStatus, plan: PlanManager.RemediationPlan,
                             pr: PrMonitor.PrStatus): Gate
      reads plan
    {
      if Truthy(pr.draft) then DraftGate
      else if !status.allReviewsComplete then ReviewsGate
      else if plan.HasBlockingItems() then BlockersGate
      else if requireCiPass && !Truthy(pr.checksPassed) then CiGate
      else if requireHumanApproval && !Truthy(pr.approved) then ApprovalGate
      else if !Truthy(pr.mergeable) then ConflictGate
      else Passed
    }

    /** `evaluate`: the decision the first failing guard produces. */
    function Evaluate(prNumber: int, status: PrMonitor.ReviewStatus, plan: PlanManager.RemediationPlan,
                      pr: PrMonitor.PrStatus): (d: MergeDecision)
      reads plan
      ensures d.prNumber == prNumber
      ensures d.readiness == FirstFailedGate(status, plan, pr).Readiness()
      ensures d.readyToMerge <==> d.readiness == Ready
      ensures d.readiness == Ready ==> d.blockingItems == [] && d.reason == "All requirements met"
      ensures d.autopilotRecommended ==> d.readyToMerge && autopilotMode
    {
      match FirstFailedGate(status, plan, pr)
      case DraftGate =>
        MergeDecision(prNumber, false, Draft, "PR is still in draft mode", ["PR marked as draft"],
                      ["Mark PR as ready for review"], false)
      case ReviewsGate =>
        MergeDecision(prNumber, false, WaitingReviews, Join(PendingReasons(status), ", "), PendingReviews(status),
                      ["Wait for automated reviews to complete"], false)
      case BlockersGate =>
        MergeDecision(prNumber, false, Blocked,
                      IntToString(|plan.criticalItems| + |plan.highItems|) + " blocking issues found in review",
                      Labelled("CRITICAL: ", plan.criticalItems) + Labelled("HIGH: ", plan.highItems),
                      ["Address all critical and high priority items", "Push fixes and wait for re-review"], false)
      case CiGate =>
        MergeDecision(prNumber, false, WaitingCi, "CI checks are failing", ["CI checks not passing"],
                      ["Fix failing CI checks"], false)
      case ApprovalGate =>
        MergeDecision(prNumber, false, WaitingApproval, "Waiting for human approval", ["No human approval"],
                      ["Request review from team member"], false)
      case ConflictGate =>
        MergeDecision(prNumber, false, Blocked, "PR has merge conflicts", ["PR has merge conflicts"],
                      ["Resolve merge conflicts"], false)
      case Passed =>
        var autopilot := autopilotMode && IsSafeForAutopilot(pr, status, plan);
        MergeDecision(prNumber, true, Ready, "All requirements met", [],
                      ReadyRecommendations(|plan.deferredItems|, |plan.lowItems| + |plan.mediumItems|, autopilot),
                      autopilot)
    }
  }

  /** `_is_safe_for_autopilot`: both reviews really done, no blockers, checks passed, approved and mergeable. */
  predicate IsSafeForAutopilot(pr: PrMonitor.PrStatus, status: PrMonitor.ReviewStatus, plan: PlanManager.RemediationPlan)
    reads plan
  {
    status.copilotComplete && status.perplexityComplete && !plan.HasBlockingItems()
    && Truthy(pr.checksPassed) && Truthy(pr.approved) && Truthy(pr.mergeable)
  }

  /** The blocking entries of an incomplete review round: Copilot first, then Perplexity. */
  function PendingReviews(status: PrMonitor.ReviewStatus): seq<string>
  {
    (if !status.copilotComplete then ["Copilot review not complete"] else [])
    + (if !status.perplexityComplete && !status.perplexityFailed then ["Perplexity review not complete"] else [])
  }

  /** The phrases joined into the reason of an incomplete review round. */
  function PendingReasons(status: PrMonitor.ReviewStatus): (r: seq<string>)
    ensures |r| == |PendingReviews(status)|
  {
    (if !status.copilotComplete then ["Copilot review pending"] else [])
    + (if !status.perplexityComplete && !status.perplexityFailed then ["Perplexity review pending"] else [])
  }

  /** One entry per item: `tag` and the first 60 characters of the description. */
  function Labelled(tag: string, items: seq<ReviewParser.ReviewItem>): (r: seq<string>)
    ensures |r| == |items|
    ensures forall i :: 0 <= i < |items| ==> r[i] == tag + Take(items[i].description, 60)
  {
    if items == [] then []
    else Labelled(tag, items[..|items| - 1]) + [tag + Take(items[|items| - 1].description, 60)]
  }

  const AllPassed := "All checks passed - ready to merge"
  // One string in the source, written in two pieces so that the verifier can read its first character.
  const AutopilotLine := "\U{F8FF}\U{FC}\U{A7}\U{F1} Autopilot: " + "Will auto-merge and proceed to next task"

  /** The recommendations of a Ready decision, in the order they are appended. */
  function ReadyRecommendations(deferred: nat, lowOrMedium: nat, autopilot: bool): seq<string>
  {
    [AllPassed]
    + (if deferred > 0 then [IntToString(deferred) + " deferred items logged for future work"] else [])
    + (if lowOrMedium > 0 then [IntToString(lowOrMedium) + " low/medium priority items can be addressed later"] else [])
    + (if autopilot then [AutopilotLine] else [])
  }

  // ---------------------------------------------------------------------------
  // Properties of `evaluate`
  // ---------------------------------------------------------------------------

  /**
   * Each outcome, stated as the conjunction of guards that leads to it: a
   * guard decides only when every earlier guard has passed.
   */
  lemma GateReadiness(r: Recommender, status: PrMonitor.ReviewStatus,
                      plan: PlanManager.RemediationPlan, pr: PrMonitor.PrStatus)
    ensures var m := r.FirstFailedGate(status, plan, pr).Readiness();
      var ciOk := !r.requireCiPass || Truthy(pr.checksPassed);
      var approvalOk := !r.requireHumanApproval || Truthy(pr.approved);
      var pending := Truthy(pr.draft) || !status.allReviewsComplete;
      (m == Draft <==> Truthy(pr.draft)) &&
      (m == WaitingReviews <==> !Truthy(pr.draft) && !status.allReviewsComplete) &&
      (m == Blocked <==>
        !pending && (plan.HasBlockingItems() || (ciOk && approvalOk && !Truthy(pr.mergeable)))) &&
      (m == WaitingCi <==> !pending && !plan.HasBlockingItems() && !ciOk) &&
      (m == WaitingApproval <==> !pending && !plan.HasBlockingItems() && ciOk && !approvalOk) &&
      (m == Ready <==> !pending && !plan.HasBlockingItems() && ciOk && approvalOk && Truthy(pr.mergeable))
  {
  }

  /** A decision that is neither Ready nor waiting for reviews always names at least one blocking item. */
  lemma NotReadyNamesBlocker(r: Recommender, prNumber: int, status: PrMonitor.ReviewStatus,
                             plan: PlanManager.RemediationPlan, pr: PrMonitor.PrStatus)
    ensures var d := r.Evaluate(prNumber, status, plan, pr);
      d.readiness != Ready && d.readiness != WaitingReviews ==> d.blockingItems != []
  {
    var d := r.Evaluate(prNumber, status, plan, pr);
    if d.readiness == Blocked && plan.HasBlockingItems() && !Truthy(pr.draft) && status.allReviewsComplete {
      var entries := Labelled("CRITICAL: ", plan.criticalItems) + Labelled("HIGH: ", plan.highItems);
      assert |entries| == |plan.criticalItems| + |plan.highItems|;
    }
  }

  /**
   * While reviews are outstanding, the Copilot entry is listed exactly when
   * Copilot has not completed, the Perplexity entry exactly when Perplexity
   * has neither completed nor failed, and the reason joins one phrase per
   * entry (it is empty when neither is listed).
   */
  lemma WaitingReviewsEntries(r: Recommender, prNumber: int, status: PrMonitor.ReviewStatus,
                              plan: PlanManager.RemediationPlan, pr: PrMonitor.PrStatus)
    requires !Truthy(pr.draft) && !status.allReviewsComplete
    ensures var d := r.Evaluate(prNumber, status, plan, pr);
      d.readiness == WaitingReviews &&
      ("Copilot review not complete" in d.blockingItems <==> !status.copilotComplete) &&
      ("Perplexity review not complete" in d.blockingItems <==> !status.perplexityComplete && !status.perplexityFailed) &&
      |d.blockingItems| <= 2 &&
      d.reason == Join(PendingReasons(status), ", ") &&
      (d.reason == "" <==> d.blockingItems == []) &&
      d.recommendations == ["Wait for automated reviews to complete"]
  {
    var reasons := PendingReasons(status);
    if reasons != [] {
      if |reasons| == 1 {
        assert Join(reasons, ", ") == reasons[0];
      } else {
        assert Join(reasons, ", ")[0] == reasons[0][0];
      }
    }
  }

  /**
   * A plan with a Critical or High item blocks the merge once the reviews are
   * in: one `CRITICAL: ` entry per critical item, then one `HIGH: ` entry per
   * high item, each with the description cut to 60 characters, and a reason
   * that counts them.
   */
  lemma BlockedByReview(r: Recommender, prNumber: int, status: PrMonitor.ReviewStatus,
                        plan: PlanManager.RemediationPlan, pr: PrMonitor.PrStatus)
    requires !Truthy(pr.draft) && status.allReviewsComplete && plan.HasBlockingItems()
    ensures var d := r.Evaluate(prNumber, status, plan, pr);
      var c := |plan.criticalItems|;
      d.readiness == Blocked && !d.readyToMerge &&
      d.reason == IntToString(c + |plan.highItems|) + " blocking issues found in review" &&
      |d.blockingItems| == c + |plan.highItems| &&
      (forall i :: 0 <= i < c ==> d.blockingItems[i] == "CRITICAL: " + Take(plan.criticalItems[i].description, 60)) &&
      (forall i :: 0 <= i < |plan.highItems| ==>
        d.blockingItems[c + i] == "HIGH: " + Take(plan.highItems[i].description, 60))
  {
    var critical := Labelled("CRITICAL: ", plan.criticalItems);
    var high := Labelled("HIGH: ", plan.highItems);
    forall i | 0 <= i < |plan.highItems|
      ensures (critical + high)[|critical| + i] == "HIGH: " + Take(plan.highItems[i].description, 60)
    {
      assert (critical + high)[|critical| + i] == high[i];
    }
  }

  /**
   * A flag the status does not carry counts as false: an unknown mergeable
   * state blocks a pull request that passes every other guard, and an unknown
   * draft flag does not make it a draft.
   */
  lemma UnknownFlagsAreFalse(r: Recommender, prNumber: int, status: PrMonitor.ReviewStatus,
                             plan: PlanManager.RemediationPlan, pr: PrMonitor.PrStatus)
    requires pr.draft == None && pr.mergeable == None
    requires status.allReviewsComplete && !plan.HasBlockingItems()
    requires !r.requireCiPass || Truthy(pr.checksPassed)
    requires !r.requireHumanApproval || Truthy(pr.approved)
    ensures var d := r.Evaluate(prNumber, status, plan, pr);
      d.readiness == Blocked && d.reason == "PR has merge conflicts" &&
      d.blockingItems == ["PR has merge conflicts"] && d.recommendations == ["Resolve merge conflicts"]
  {
  }

  /**
   * Autopilot is recommended only for a Ready decision with autopilot on, and
   * then the pull request really passed everything, whether or not the
   * recommender itself requires CI or approval.
   */
  lemma AutopilotIsSafe(r: Recommender, prNumber: int, status: PrMonitor.ReviewStatus,
                        plan: PlanManager.RemediationPlan, pr: PrMonitor.PrStatus)
    ensures var d := r.Evaluate(prNumber, status, plan, pr);
      d.autopilotRecommended <==> d.readyToMerge && r.autopilotMode && IsSafeForAutopilot(pr, status, plan)
    ensures var d := r.Evaluate(prNumber, status, plan, pr);
      d.autopilotRecommended ==>
        status.copilotComplete && status.perplexityComplete && !plan.HasBlockingItems() &&
        Truthy(pr.checksPassed) && Truthy(pr.approved) && Truthy(pr.mergeable) && !Truthy(pr.draft)
  {
  }

  /** A Perplexity review that failed or timed out instead of completing rules autopilot out. */
  lemma PerplexityFailureDisqualifies(r: Recommender, prNumber: int, status: PrMonitor.ReviewStatus,
                                      plan: PlanManager.RemediationPlan, pr: PrMonitor.PrStatus)
    requires !status.perplexityComplete
    ensures !r.Evaluate(prNumber, status, plan, pr).autopilotRecommended
  {
  }

  /**
   * The recommendations of a Ready decision: the all-passed line first, then
   * the deferred count when there are deferred items, then the low and medium
   * count when there are any, then the autopilot line exactly when autopilot
   * is recommended.
   */
  lemma ReadyRecommendationOrder(r: Recommender, prNumber: int, status: PrMonitor.ReviewStatus,
                                 plan: PlanManager.RemediationPlan, pr: PrMonitor.PrStatus)
    ensures var d := r.Evaluate(prNumber, status, plan, pr);
      var recs := d.recommendations;
      var deferred := if plan.deferredItems != [] then 1 else 0;
      var later := if |plan.lowItems| + |plan.mediumItems| > 0 then 1 else 0;
      d.readyToMerge ==>
        |recs| == 1 + deferred + later + (if d.autopilotRecommended then 1 else 0) &&
        recs[0] == AllPassed &&
        (plan.deferredItems != [] ==>
          recs[1] == IntToString(|plan.deferredItems|) + " deferred items logged for future work") &&
        (later == 1 ==>
          recs[1 + deferred] == IntToString(|plan.lowItems| + |plan.mediumItems|)
                                + " low/medium priority items can be addressed later") &&
        (recs[|recs| - 1] == AutopilotLine <==> d.autopilotRecommended)
  {
    var d := r.Evaluate(prNumber, status, plan, pr);
    if d.readyToMerge {
      var recs := d.recommendations;
      AutopilotLineIsNotCount(|plan.deferredItems|, |plan.lowItems| + |plan.mediumItems|);
    }
  }

  /** The autopilot line is not the all-passed line nor one of the two counts. */
  lemma {:induction false} AutopilotLineIsNotCount(deferred: nat, lowOrMedium: nat)
    ensures AutopilotLine != AllPassed
    ensures AutopilotLine != IntToString(deferred) + " deferred items logged for future work"
    ensures AutopilotLine != IntToString(lowOrMedium) + " low/medium priority items can be addressed later"
  {
    assert AutopilotLine[0] == '\U{F8FF}';
    assert AllPassed[0] == 'A';
    assert IsDigit((IntToString(deferred) + " deferred items logged for future work")[0]);
    assert IsDigit((IntToString(lowOrMedium) + " low/medium priority items can be addressed later")[0]);
  }

  // ---------------------------------------------------------------------------
  // `format_decision`
  // ---------------------------------------------------------------------------

  const ReadyBanner := "\U{201A}\U{FA}\U{D6} **READY TO MERGE**"
  const NotReadyBanner := "\U{201A}\U{F9}\U{E5} **NOT READY** ("
  const BlockingHeading := "\U{F8FF}\U{FC}\U{F6}\U{B4} Blocking Items:"
  const RecommendationsHeading := "\U{F8FF}\U{FC}\U{ED}\U{B0} Recommendations:"
  const AutopilotBanner := "\U{F8FF}\U{FC}\U{A7}\U{F1} **AUTOPILOT ENABLED**"
  const AutopilotNote := "   Will auto-merge and proceed to next task"
  const Dot := "  \U{201A}\U{C4}\U{A2} "

  /** One bulleted line per entry, in order. */
  function Bulleted(entries: seq<string>): (r: seq<string>)
    ensures |r| == |entries|
    ensures forall i :: 0 <= i < |entries| ==> r[i] == Dot + entries[i]
  {
    if entries == [] then [] else Bulleted(entries[..|entries| - 1]) + [Dot + entries[|entries| - 1]]
  }

  /** A headed, bulleted list and a blank line; nothing for an empty list. */
  function Section(heading: string, entries: seq<string>): seq<string>
  {
    if entries == [] then [] else [heading] + Bulleted(entries) + [""]
  }

  function StatusLine(d: MergeDecision): string
  {
    if d.readyToMerge then ReadyBanner else NotReadyBanner + Upper(d.readiness.Value()) + ")"
  }

  function Opening(d: MergeDecision): seq<string>
  {
    [PlanManager.Rule, "Merge Recommendation: PR #" + IntToString(d.prNumber), PlanManager.Rule, "",
     StatusLine(d), "Reason: " + d.reason, ""]
  }

  function Closing(d: MergeDecision): seq<string>
  {
    (if d.autopilotRecommended then [AutopilotBanner, AutopilotNote] else []) + [PlanManager.Rule]
  }

  /** The lines of `format_decision`. */
  function FormatLines(d: MergeDecision): seq<string>
  {
    Opening(d) + Section(BlockingHeading, d.blockingItems) + Section(RecommendationsHeading, d.recommendations)
    + Closing(d)
  }

  function FormatDecision(d: MergeDecision): string
  {
    Join(FormatLines(d), "\n")
  }

  /** The status line reads READY TO MERGE exactly when the decision is ready to merge. */
  lemma {:induction false} FormatShowsReadiness(d: MergeDecision)
    ensures var lines := FormatLines(d);
      |lines| > 5 && (lines[4] == ReadyBanner <==> d.readyToMerge) &&
      (!d.readyToMerge ==> lines[4] == NotReadyBanner + Upper(d.readiness.Value()) + ")")
  {
    assert ReadyBanner[1] == '\U{FA}';
    assert (NotReadyBanner + Upper(d.readiness.Value()) + ")")[1] == '\U{F9}';
    assert FormatLines(d)[4] == StatusLine(d);
  }

  /** Every entry of a section is bulleted once, in order, and its heading and blank line are not bulleted. */
  lemma {:induction false} SectionBullets(heading: string, entries: seq<string>)
    requires Avoids(heading, Dot, 0)
    ensures WithPrefix(Section(heading, entries), Dot) == Bulleted(entries)
  {
    if entries != [] {
      var body := Bulleted(entries);
      BulletedAreBullets(entries);
      AvoidsNotStart(heading, Dot, 0);
      NoneWithPrefix([heading], Dot);
      NoneWithPrefix([""], Dot);
      WithPrefixAppend([heading], body, Dot);
      WithPrefixAppend([heading] + body, [""], Dot);
      assert [] + body + [] == body;
    }
  }

  lemma {:induction false} BulletedAreBullets(entries: seq<string>)
    ensures WithPrefix(Bulleted(entries), Dot) == Bulleted(entries)
  {
    if entries != [] {
      var init := entries[..|entries| - 1];
      var line := Dot + entries[|entries| - 1];
      BulletedAreBullets(init);
      WithPrefixAppend(Bulleted(init), [line], Dot);
      assert line[..|Dot|] == Dot;
    }
  }

  lemma {:induction false} OpeningHasNoBullets(d: MergeDecision)
    ensures WithPrefix(Opening(d), Dot) == []
  {
    var status := StatusLine(d);
    assert status[0] == '\U{201A}';
    NoneOfSeven(PlanManager.Rule, "Merge Recommendation: PR #" + IntToString(d.prNumber), PlanManager.Rule, "",
                status, "Reason: " + d.reason, "", Dot, 0);
  }

  lemma {:induction false} ClosingHasNoBullets(d: MergeDecision)
    ensures WithPrefix(Closing(d), Dot) == []
  {
    var banner := if d.autopilotRecommended then [AutopilotBanner, AutopilotNote] else [];
    assert PlanManager.Rule[0] == '=';
    NoneOfOne(PlanManager.Rule, Dot, 0);
    if d.autopilotRecommended {
      assert AutopilotBanner[2] == '\U{A7}';
      assert AutopilotNote[2] == ' ';
      AvoidsNotStart(AutopilotBanner, Dot, 2);
      AvoidsNotStart(AutopilotNote, Dot, 2);
      NoneWithPrefix(banner, Dot);
    }
    WithPrefixAppend(banner, [PlanManager.Rule], Dot);
  }

  /**
   * The bulleted lines of the formatted decision are exactly its blocking
   * items and then its recommendations, each once and in order.
   */
  lemma {:induction false} FormatListsEntries(d: MergeDecision)
    ensures WithPrefix(FormatLines(d), Dot) == Bulleted(d.blockingItems) + Bulleted(d.recommendations)
  {
    var blocking := Section(BlockingHeading, d.blockingItems);
    var recs := Section(RecommendationsHeading, d.recommendations);
    assert FormatLines(d) == Opening(d) + blocking + recs + Closing(d);
    assert WithPrefix(Opening(d), Dot) == [] by {
      OpeningHasNoBullets(d);
    }
    assert WithPrefix(blocking, Dot) == Bulleted(d.blockingItems) by {
      assert BlockingHeading[0] == '\U{F8FF}';
      SectionBullets(BlockingHeading, d.blockingItems);
    }
    assert WithPrefix(recs, Dot) == Bulleted(d.recommendations) by {
      assert RecommendationsHeading[0] == '\U{F8FF}';
      SectionBullets(RecommendationsHeading, d.recommendations);
    }
    assert WithPrefix(Closing(d), Dot) == [] by {
      ClosingHasNoBullets(d);
    }
    WithPrefixFour(Opening(d), blocking, recs, Closing(d), Dot);
    AppendEmpties(Bulleted(d.blockingItems), Bulleted(d.recommendations));
  }
}
