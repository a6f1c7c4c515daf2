/**
 * The remediation planner (src/planning/plan_manager.py): it sorts the review
 * items of one pull request into priority lists, files the deferred ones as a
 * GitHub issue and renders a plain-text summary of the plan.
 */
module PlanManager {
  import opened Wrappers
  import opened Text
  import opened ReviewParser

  // ---------------------------------------------------------------------------
  // The plan
  // ---------------------------------------------------------------------------

  /** `RemediationPlan`: the items to address for one pull request, by priority. */
  class RemediationPlan {
    var prNumber: int
    /** `created_at`, already rendered as `%Y-%m-%d %H:%M:%S`. */
    var createdAt: string
    var criticalItems: seq<ReviewItem>
    var highItems: seq<ReviewItem>
    var mediumItems: seq<ReviewItem>
    var lowItems: seq<ReviewItem>
    var deferredItems: seq<ReviewItem>
    var deferredIssueNumber: Option<int>

    constructor (prNumber: int, createdAt: string)
      ensures this.prNumber == prNumber && this.createdAt == createdAt
      ensures criticalItems == [] && highItems == [] && mediumItems == []
      ensures lowItems == [] && deferredItems == []
      ensures deferredIssueNumber == None
    {
      this.prNumber := prNumber;
      this.createdAt := createdAt;
      criticalItems := [];
      highItems := [];
      mediumItems := [];
      lowItems := [];
      deferredItems := [];
      deferredIssueNumber := None;
    }

    /** Every list holds items of its own priority only. */
    predicate Sorted()
      reads this
    {
      (forall x :: x in criticalItems ==> x.priority == Critical) &&
      (forall x :: x in highItems ==> x.priority == High) &&
      (forall x :: x in mediumItems ==> x.priority == Medium) &&
      (forall x :: x in lowItems ==> x.priority == Low) &&
      (forall x :: x in deferredItems ==> x.priority == Deferred)
    }

    /** `has_blocking_items` */
    predicate HasBlockingItems()
      reads this
    {
      |criticalItems| > 0 || |highItems| > 0
    }

    /** `total_items`: the actionable items and the deferred ones. */
    function TotalItems(): (n: nat)
      reads this
      ensures n == |ActionableItems()| + |deferredItems|
    {
      |criticalItems| + |highItems| + |mediumItems| + |lowItems| + |deferredItems|
    }

    /** `actionable_items`: everything but the deferred items, Critical first. */
    function ActionableItems(): (r: seq<ReviewItem>)
      reads this
      ensures forall x :: x in r <==> x in criticalItems || x in highItems || x in mediumItems || x in lowItems
    {
      criticalItems + highItems + mediumItems + lowItems
    }
  }

  /** In a sorted plan the actionable items are never Deferred or Info, and the plan blocks exactly when one of them is Critical or High. */
  lemma {:induction false} SortedPlanItems(plan: RemediationPlan)
    requires plan.Sorted()
    ensures forall x :: x in plan.ActionableItems() ==> x.priority != Deferred && x.priority != Info
    ensures plan.HasBlockingItems() <==> exists x :: x in plan.ActionableItems() && x.IsBlocking()
  {
    if plan.criticalItems != [] {
      assert plan.criticalItems[0] in plan.ActionableItems();
    } else if plan.highItems != [] {
      assert plan.highItems[0] in plan.ActionableItems();
    }
  }

  /**
   * The categorizing loop of `create_plan`: each review item goes to the list
   * of its priority, in input order; Info items go nowhere.
   */
  method SortByPriority(reviewItems: seq<ReviewItem>)
    returns (critical: seq<ReviewItem>, high: seq<ReviewItem>, medium: seq<ReviewItem>,
             low: seq<ReviewItem>, deferred: seq<ReviewItem>)
    ensures critical == WithPriority(reviewItems, Critical)
    ensures high == WithPriority(reviewItems, High)
    ensures medium == WithPriority(reviewItems, Medium)
    ensures low == WithPriority(reviewItems, Low)
    ensures deferred == WithPriority(reviewItems, Deferred)
  {
    critical, high, medium, low, deferred := [], [], [], [], [];
    for i := 0 to |reviewItems|
      invariant critical == WithPriority(reviewItems[..i], Critical)
      invariant high == WithPriority(reviewItems[..i], High)
      invariant medium == WithPriority(reviewItems[..i], Medium)
      invariant low == WithPriority(reviewItems[..i], Low)
      invariant deferred == WithPriority(reviewItems[..i], Deferred)
    {
      var item := reviewItems[i];
      assert reviewItems[..i + 1][..i] == reviewItems[..i];
      if item.priority == Critical {
        critical := critical + [item];
      } else if item.priority == High {
        high := high + [item];
      } else if item.priority == Medium {
        medium := medium + [item];
      } else if item.priority == Low {
        low := low + [item];
      } else if item.priority == Deferred {
        deferred := deferred + [item];
      }
    }
    assert reviewItems[..|reviewItems|] == reviewItems;
  }

  /** `create_plan`: a new plan for the pull request holding the review items sorted by priority. */
  method CreatePlan(prNumber: int, createdAt: string, reviewItems: seq<ReviewItem>) returns (plan: RemediationPlan)
    ensures fresh(plan)
    ensures plan.prNumber == prNumber && plan.createdAt == createdAt && plan.deferredIssueNumber == None
    ensures plan.criticalItems == WithPriority(reviewItems, Critical)
    ensures plan.highItems == WithPriority(reviewItems, High)
    ensures plan.mediumItems == WithPriority(reviewItems, Medium)
    ensures plan.lowItems == WithPriority(reviewItems, Low)
    ensures plan.deferredItems == WithPriority(reviewItems, Deferred)
    ensures plan.Sorted()
    ensures plan.TotalItems() == |reviewItems| - |WithPriority(reviewItems, Info)|
    ensures plan.HasBlockingItems() <==> exists x :: x in reviewItems && x.IsBlocking()
  {
    var critical, high, medium, low, deferred := SortByPriority(reviewItems);
    plan := new RemediationPlan(prNumber, createdAt);
    plan.criticalItems, plan.highItems, plan.mediumItems, plan.lowItems, plan.deferredItems
      := critical, high, medium, low, deferred;
    PlanOfItems(plan, reviewItems);
  }

  /** A plan whose lists are the priority buckets of some items is sorted, counts every non-Info item and blocks on Critical or High. */
  lemma {:induction false} PlanOfItems(plan: RemediationPlan, reviewItems: seq<ReviewItem>)
    requires plan.criticalItems == WithPriority(reviewItems, Critical)
    requires plan.highItems == WithPriority(reviewItems, High)
    requires plan.mediumItems == WithPriority(reviewItems, Medium)
    requires plan.lowItems == WithPriority(reviewItems, Low)
    requires plan.deferredItems == WithPriority(reviewItems, Deferred)
    ensures plan.Sorted()
    ensures plan.TotalItems() == |reviewItems| - |WithPriority(reviewItems, Info)|
    ensures plan.HasBlockingItems() <==> exists x :: x in reviewItems && x.IsBlocking()
  {
    PartitionSizes(reviewItems);
    PlanBlocking(reviewItems);
  }

  /** The six priority lists together hold every item exactly once. */
  lemma {:induction false} PartitionSizes(items: seq<ReviewItem>)
    ensures |WithPriority(items, Critical)| + |WithPriority(items, High)| + |WithPriority(items, Medium)|
      + |WithPriority(items, Low)| + |WithPriority(items, Deferred)| + |WithPriority(items, Info)| == |items|
  {
    if items != [] {
      PartitionSizes(items[..|items| - 1]);
    }
  }

  /** A plan blocks exactly when some review item is Critical or High. */
  lemma {:induction false} PlanBlocking(items: seq<ReviewItem>)
    ensures WithPriority(items, Critical) != [] || WithPriority(items, High) != []
      <==> exists x :: x in items && x.IsBlocking()
  {
    BlockingIsCriticalAndHigh(items);
    if BlockingItems(items) != [] {
      assert BlockingItems(items)[0] in BlockingItems(items);
    }
  }

  // ---------------------------------------------------------------------------
  // The deferred-tasks issue
  // ---------------------------------------------------------------------------

  /** An item is filed under its category when the category is a non-empty string. */
  predicate HasCategory(x: ReviewItem)
  {
    TruthyString(x.category)
  }

  /** The categories of the items, each once, in order of first appearance. */
  function Categories(items: seq<ReviewItem>): seq<string>
  {
    if items == [] then []
    else
      var cs := Categories(items[..|items| - 1]);
      var x := items[|items| - 1];
      if HasCategory(x) && x.category.value !in cs then cs + [x.category.value] else cs
  }

  /** The items filed under category `c`, in input order. */
  function InCategory(items: seq<ReviewItem>, c: string): (r: seq<ReviewItem>)
    ensures forall x :: x in r <==> x in items && HasCategory(x) && x.category.value == c
  {
    if items == [] then []
    else
      var x := items[|items| - 1];
      InCategory(items[..|items| - 1], c) + (if HasCategory(x) && x.category.value == c then [x] else [])
  }

  /** The items without a category, in input order. */
  function Uncategorized(items: seq<ReviewItem>): (r: seq<ReviewItem>)
    ensures forall x :: x in r <==> x in items && !HasCategory(x)
  {
    if items == [] then []
    else
      var x := items[|items| - 1];
      Uncategorized(items[..|items| - 1]) + (if HasCategory(x) then [] else [x])
  }

  predicate Distinct(cs: seq<string>)
  {
    forall i, j :: 0 <= i < j < |cs| ==> cs[i] != cs[j]
  }

  /** No category is listed twice. */
  lemma {:induction false} CategoriesDistinct(items: seq<ReviewItem>)
    ensures Distinct(Categories(items))
  {
    if items != [] {
      CategoriesDistinct(items[..|items| - 1]);
    }
  }

  /** A category is listed exactly when some item is filed under it. */
  lemma {:induction false} CategoriesListed(items: seq<ReviewItem>, c: string)
    ensures c in Categories(items) <==> InCategory(items, c) != []
  {
    if items != [] {
      CategoriesListed(items[..|items| - 1], c);
    }
  }

  /** More items never reorder or drop the categories already seen: groups appear in first-seen order. */
  lemma {:induction false} CategoriesPrefix(a: seq<ReviewItem>, b: seq<ReviewItem>)
    ensures Categories(a) <= Categories(a + b)
    decreases |b|
  {
    if b == [] {
      assert a + b == a;
    } else {
      assert (a + b)[..|a + b| - 1] == a + b[..|b| - 1];
      CategoriesPrefix(a, b[..|b| - 1]);
    }
  }

  /** The location suffix of a task line; present exactly when the item names a file. */
  function Location(x: ReviewItem): (r: string)
    ensures r == "" <==> !TruthyString(x.file)
    ensures TruthyString(x.file) ==> StartsWith(r, " (in `" + x.file.value + "`") && EndsWith(r, ")")
    ensures TruthyString(x.file) && !TruthyInt(x.line) ==> r == " (in `" + x.file.value + "`)"
  {
    if TruthyString(x.file) then
      var inFile := " (in `" + x.file.value + "`";
      (if TruthyInt(x.line) then inFile + " line " + IntToString(x.line.value) else inFile) + ")"
    else ""
  }

  const Checkbox := "- [ ] "

  /** One unchecked task line. */
  function ItemLine(x: ReviewItem): string
  {
    Checkbox + x.description + Location(x)
  }

  function ItemLines(items: seq<ReviewItem>): (r: seq<string>)
    ensures |r| == |items|
  {
    if items == [] then [] else ItemLines(items[..|items| - 1]) + [ItemLine(items[|items| - 1])]
  }

  /** `## Category`, a blank line, the category's task lines and a blank line. */
  function CategoryBlock(c: string, items: seq<ReviewItem>): seq<string>
  {
    ["## " + TitleCase(c), ""] + ItemLines(InCategory(items, c)) + [""]
  }

  function CategoryBlocks(cs: seq<string>, items: seq<ReviewItem>): seq<string>
  {
    if cs == [] then []
    else CategoryBlocks(cs[..|cs| - 1], items) + CategoryBlock(cs[|cs| - 1], items)
  }

  /** The `## Other Tasks` block, present only when some item has no category. */
  function OtherBlock(items: seq<ReviewItem>): seq<string>
  {
    var u := Uncategorized(items);
    if u == [] then [] else ["## Other Tasks", ""] + ItemLines(u) + [""]
  }

  function IssueHeader(prNumber: int): seq<string>
  {
    ["# Deferred Tasks from PR #" + IntToString(prNumber), "",
     "These items were identified" + " during code review but deferred for future work:", ""]
  }

  // The longer literals of the issue body and the summary are written in two pieces: the
  // value is the source's single string, and the verifier can read a character out of each piece.
  const LabelsLine := "**Labels:** `deferred`, " + "`technical-debt`, `orchestratorai`"
  const IssueFooter := "\U{1F916} *This issue was automatically" + " created by OrchestratorAI*"

  function OriginalIssueLines(originalIssue: Option<int>): seq<string>
  {
    if TruthyInt(originalIssue) then ["- Original Issue: #" + IntToString(originalIssue.value)] else []
  }

  function ContextOpening(prNumber: int): seq<string>
  {
    ["---", "", "**Context:**", "- Original PR: #" + IntToString(prNumber)]
  }

  function ContextClosing(createdAt: string): seq<string>
  {
    ["- Created: " + createdAt, "", LabelsLine, "", "---", "", IssueFooter]
  }

  function IssueContext(prNumber: int, originalIssue: Option<int>, createdAt: string): seq<string>
  {
    ContextOpening(prNumber) + OriginalIssueLines(originalIssue) + ContextClosing(createdAt)
  }

  /** The lines of the deferred-tasks issue body. */
  function DeferredIssueLines(deferred: seq<ReviewItem>, prNumber: int, originalIssue: Option<int>, createdAt: string): seq<string>
  {
    IssueHeader(prNumber) + CategoryBlocks(Categories(deferred), deferred) + OtherBlock(deferred)
    + IssueContext(prNumber, originalIssue, createdAt)
  }

  function DeferredIssueBody(deferred: seq<ReviewItem>, prNumber: int, originalIssue: Option<int>, createdAt: string): string
  {
    Join(DeferredIssueLines(deferred, prNumber, originalIssue, createdAt), "\n")
  }

  /** Appends one task line per item, in order. */
  method AppendItemLines(lines: seq<string>, items: seq<ReviewItem>) returns (out: seq<string>)
    ensures out == lines + ItemLines(items)
  {
    out := lines;
    for k := 0 to |items|
      invariant out == lines + ItemLines(items[..k])
    {
      assert items[..k + 1][..k] == items[..k];
      var item := items[k];
      var location := "";
      if TruthyString(item.file) {
        location := " (in `" + item.file.value + "`";
        if TruthyInt(item.line) {
          location := location + " line " + IntToString(item.line.value);
        }
        location := location + ")";
      }
      out := out + [Checkbox + item.description + location];
    }
    assert items[..|items|] == items;
  }

  /**
   * The grouping loop of `_build_deferred_issue_body`: the categories in order
   * of first appearance (the insertion order of the source's dictionary), the
   * items of each, and the items without a category.
   */
  method GroupByCategory(deferred: seq<ReviewItem>)
    returns (order: seq<string>, categorized: map<string, seq<ReviewItem>>, uncategorized: seq<ReviewItem>)
    ensures order == Categories(deferred)
    ensures forall c :: c in categorized <==> c in order
    ensures forall c :: c in categorized ==> categorized[c] == InCategory(deferred, c)
    ensures uncategorized == Uncategorized(deferred)
  {
    categorized := map[];
    order := [];
    uncategorized := [];
    for i := 0 to |deferred|
      invariant order == Categories(deferred[..i])
      invariant forall c :: c in categorized <==> c in order
      invariant forall c :: c in categorized ==> categorized[c] == InCategory(deferred[..i], c)
      invariant uncategorized == Uncategorized(deferred[..i])
    {
      var item := deferred[i];
      assert deferred[..i + 1][..i] == deferred[..i];
      if TruthyString(item.category) {
        var c := item.category.value;
        if c !in categorized {
          CategoriesListed(deferred[..i], c);
          categorized := categorized[c := []];
          order := order + [c];
        }
        categorized := categorized[c := categorized[c] + [item]];
      } else {
        uncategorized := uncategorized + [item];
      }
    }
    assert deferred[..|deferred|] == deferred;
  }

  /** Appends one block per category, in the given order. */
  method AppendCategoryBlocks(lines: seq<string>, order: seq<string>, categorized: map<string, seq<ReviewItem>>,
                              ghost deferred: seq<ReviewItem>) returns (out: seq<string>)
    requires forall c :: c in order ==> c in categorized && categorized[c] == InCategory(deferred, c)
    ensures out == lines + CategoryBlocks(order, deferred)
  {
    out := lines;
    for j := 0 to |order|
      invariant out == lines + CategoryBlocks(order[..j], deferred)
    {
      assert order[..j + 1][..j] == order[..j];
      var c := order[j];
      ghost var done := CategoryBlocks(order[..j], deferred);
      out := AppendCategoryBlock(out, c, categorized[c], deferred);
      assert CategoryBlocks(order[..j + 1], deferred) == done + CategoryBlock(c, deferred);
      AppendAssoc(lines, done, CategoryBlock(c, deferred));
    }
    assert order[..|order|] == order;
  }

  /** Appends the heading, the task lines and the closing blank line of one category. */
  method AppendCategoryBlock(lines: seq<string>, c: string, group: seq<ReviewItem>, ghost deferred: seq<ReviewItem>)
    returns (out: seq<string>)
    requires group == InCategory(deferred, c)
    ensures out == lines + CategoryBlock(c, deferred)
  {
    ghost var heading := ["## " + TitleCase(c), ""];
    out := AppendItemLines(lines + ["## " + TitleCase(c), ""], group);
    out := out + [""];
    AppendAssoc(lines, heading, ItemLines(group));
    AppendAssoc(lines, heading + ItemLines(group), [""]);
  }

  /**
   * `_build_deferred_issue_body`: the deferred items grouped by category (in
   * order of first appearance), the uncategorized ones under `## Other Tasks`,
   * then the context block.
   */
  method BuildDeferredIssueBody(plan: RemediationPlan, prNumber: int, originalIssue: Option<int>) returns (body: string)
    ensures body == DeferredIssueBody(plan.deferredItems, prNumber, originalIssue, plan.createdAt)
  {
    ghost var deferred := plan.deferredItems;
    var order, categorized, uncategorized := GroupByCategory(plan.deferredItems);
    var lines := ["# Deferred Tasks from PR #" + IntToString(prNumber), "",
                  "These items were identified" + " during code review but deferred for future work:", ""];
    lines := AppendCategoryBlocks(lines, order, categorized, deferred);
    ghost var blocks := lines;
    if uncategorized != [] {
      lines := AppendItemLines(lines + ["## Other Tasks", ""], uncategorized);
      lines := lines + [""];
      AppendAssoc(blocks, ["## Other Tasks", ""], ItemLines(uncategorized));
      AppendAssoc(blocks, ["## Other Tasks", ""] + ItemLines(uncategorized), [""]);
    }
    assert lines == blocks + OtherBlock(deferred);
    ghost var content := lines;
    lines := lines + ["---", "", "**Context:**", "- Original PR: #" + IntToString(prNumber)];
    assert lines == content + ContextOpening(prNumber);
    if TruthyInt(originalIssue) {
      lines := lines + ["- Original Issue: #" + IntToString(originalIssue.value)];
    }
    assert lines == content + ContextOpening(prNumber) + OriginalIssueLines(originalIssue);
    ghost var opening := lines;
    lines := lines + ["- Created: " + plan.createdAt, "", LabelsLine, "", "---", "", IssueFooter];
    assert lines == opening + ContextClosing(plan.createdAt);
    AppendAssoc(content, ContextOpening(prNumber), OriginalIssueLines(originalIssue));
    AppendAssoc(content, ContextOpening(prNumber) + OriginalIssueLines(originalIssue), ContextClosing(plan.createdAt));
    assert lines == content + IssueContext(prNumber, originalIssue, plan.createdAt);
    body := Join(lines, "\n");
  }

  /** The task lines of a list of lines. */
  function Tasks(lines: seq<string>): seq<string>
  {
    WithPrefix(lines, Checkbox)
  }

  lemma {:induction false} ItemLinesAreTasks(items: seq<ReviewItem>)
    ensures Tasks(ItemLines(items)) == ItemLines(items)
  {
    if items != [] {
      var x := items[|items| - 1];
      ItemLinesAreTasks(items[..|items| - 1]);
      WithPrefixAppend(ItemLines(items[..|items| - 1]), [ItemLine(x)], Checkbox);
      assert ItemLine(x)[..|Checkbox|] == Checkbox;
    }
  }

  /** The number of items filed under the categories `cs`. */
  function Grouped(cs: seq<string>, items: seq<ReviewItem>): nat
  {
    if cs == [] then 0 else Grouped(cs[..|cs| - 1], items) + |InCategory(items, cs[|cs| - 1])|
  }

  lemma {:induction false} CategoryBlocksTasks(cs: seq<string>, items: seq<ReviewItem>)
    ensures |Tasks(CategoryBlocks(cs, items))| == Grouped(cs, items)
  {
    if cs != [] {
      var c := cs[|cs| - 1];
      CategoryBlocksTasks(cs[..|cs| - 1], items);
      var g := ItemLines(InCategory(items, c));
      ItemLinesAreTasks(InCategory(items, c));
      DiffersAt("## " + TitleCase(c), Checkbox, 0);
      WithPrefixAppend(["## " + TitleCase(c), ""], g, Checkbox);
      WithPrefixAppend(["## " + TitleCase(c), ""] + g, [""], Checkbox);
      WithPrefixAppend(CategoryBlocks(cs[..|cs| - 1], items), CategoryBlock(c, items), Checkbox);
    }
  }

  /** One more item adds one to the count of a list of distinct categories exactly when it is filed under one of them. */
  lemma {:induction false} GroupedSnoc(cs: seq<string>, init: seq<ReviewItem>, x: ReviewItem)
    requires Distinct(cs)
    ensures Grouped(cs, init + [x]) == Grouped(cs, init) + (if HasCategory(x) && x.category.value in cs then 1 else 0)
  {
    if cs != [] {
      var c := cs[|cs| - 1];
      var front := cs[..|cs| - 1];
      assert Distinct(front);
      GroupedSnoc(front, init, x);
      assert (init + [x])[..|init|] == init;
      assert cs == front + [c];
      assert c !in front;
    }
  }

  /** Grouping by category loses no item and files none twice. */
  lemma {:induction false} GroupingCovers(items: seq<ReviewItem>)
    ensures Grouped(Categories(items), items) + |Uncategorized(items)| == |items|
  {
    if items != [] {
      var init := items[..|items| - 1];
      var x := items[|items| - 1];
      var cs := Categories(init);
      assert items == init + [x];
      GroupingCovers(init);
      CategoriesDistinct(init);
      GroupedSnoc(cs, init, x);
      if HasCategory(x) && x.category.value !in cs {
        var c := x.category.value;
        CategoriesListed(init, c);
        assert (cs + [c])[..|cs|] == cs;
        assert InCategory(items, c) == InCategory(init, c) + [x];
      }
    }
  }

  lemma {:induction false} OpeningAvoids(prNumber: int, p: string, at: nat)
    requires |p| > 2 && at < |p| && at < 16 && p[2] != '-' && p[2] != 'C'
    requires ("- Original PR: #" + IntToString(prNumber))[at] != p[at]
    ensures WithPrefix(ContextOpening(prNumber), p) == []
  {
    NoneOfFour("---", "", "**Context:**", "- Original PR: #" + IntToString(prNumber), p, 2, at);
  }

  lemma {:induction false} ClosingAvoids(createdAt: string, p: string)
    requires |p| > 2 && p[2] != '-' && p[2] != 'C' && p[2] != 'L' && p[2] != '*'
    ensures WithPrefix(ContextClosing(createdAt), p) == []
  {
    NoneOfSeven("- Created: " + createdAt, "", LabelsLine, "", "---", "", IssueFooter, p, 2);
  }

  /** The context lines differ from `p` at index 2, except `- Original PR: #…`, which differs at `at`. */
  lemma {:induction false} ContextAvoids(prNumber: int, originalIssue: Option<int>, createdAt: string, p: string, at: nat)
    requires |p| > 2 && at < |p| && at < 16 && p[2] != '-' && p[2] != 'C' && p[2] != 'L' && p[2] != '*'
    requires ("- Original PR: #" + IntToString(prNumber))[at] != p[at]
    requires TruthyInt(originalIssue) ==> ("- Original Issue: #" + IntToString(originalIssue.value))[2] != p[2]
    ensures WithPrefix(IssueContext(prNumber, originalIssue, createdAt), p) == []
  {
    var opening := ContextOpening(prNumber);
    var issue := OriginalIssueLines(originalIssue);
    var closing := ContextClosing(createdAt);
    assert IssueContext(prNumber, originalIssue, createdAt) == opening + issue + closing;
    assert WithPrefix(opening, p) == [] by {
      OpeningAvoids(prNumber, p, at);
    }
    assert WithPrefix(issue, p) == [] by {
      if TruthyInt(originalIssue) {
        DiffersAt(issue[0], p, 2);
      }
      NoneWithPrefix(issue, p);
    }
    assert WithPrefix(closing, p) == [] by {
      ClosingAvoids(createdAt, p);
    }
    WithPrefixAppend(opening, issue, p);
    WithPrefixAppend(opening + issue, closing, p);
  }

  lemma {:induction false} HeaderHasNoTasks(prNumber: int)
    ensures Tasks(IssueHeader(prNumber)) == []
  {
    NoneOfFour("# Deferred Tasks from PR #" + IntToString(prNumber), "",
               "These items were identified" + " during code review but deferred for future work:", "", Checkbox, 0, 0);
  }

  lemma {:induction false} OtherBlockTasks(deferred: seq<ReviewItem>)
    ensures |Tasks(OtherBlock(deferred))| == |Uncategorized(deferred)|
  {
    if Uncategorized(deferred) != [] {
      var u := ItemLines(Uncategorized(deferred));
      ItemLinesAreTasks(Uncategorized(deferred));
      DiffersAt("## Other Tasks", Checkbox, 0);
      NoneWithPrefix(["## Other Tasks", ""], Checkbox);
      NoneWithPrefix([""], Checkbox);
      WithPrefixAppend(["## Other Tasks", ""], u, Checkbox);
      WithPrefixAppend(["## Other Tasks", ""] + u, [""], Checkbox);
    }
  }

  lemma {:induction false} ContextHasNoTasks(prNumber: int, originalIssue: Option<int>, createdAt: string)
    ensures Tasks(IssueContext(prNumber, originalIssue, createdAt)) == []
  {
    assert Checkbox[2] == '[';
    assert ("- Original PR: #" + IntToString(prNumber))[2] == 'O';
    if TruthyInt(originalIssue) {
      assert ("- Original Issue: #" + IntToString(originalIssue.value))[2] == 'O';
    }
    ContextAvoids(prNumber, originalIssue, createdAt, Checkbox, 2);
  }

  /** The issue body holds one unchecked task per deferred item, and no other. */
  lemma {:induction false} DeferredIssueTaskCount(deferred: seq<ReviewItem>, prNumber: int, originalIssue: Option<int>, createdAt: string)
    ensures |Tasks(DeferredIssueLines(deferred, prNumber, originalIssue, createdAt))| == |deferred|
  {
    HeaderHasNoTasks(prNumber);
    CategoryBlocksTasks(Categories(deferred), deferred);
    GroupingCovers(deferred);
    OtherBlockTasks(deferred);
    ContextHasNoTasks(prNumber, originalIssue, createdAt);
    WithPrefixFour(IssueHeader(prNumber), CategoryBlocks(Categories(deferred), deferred), OtherBlock(deferred),
                   IssueContext(prNumber, originalIssue, createdAt), Checkbox);
  }

  /** The context block names the original issue exactly when one is given (a non-zero number). */
  lemma {:induction false} ContextNamesOriginalIssue(prNumber: int, originalIssue: Option<int>, createdAt: string)
    ensures var ctx := IssueContext(prNumber, originalIssue, createdAt);
      |WithPrefix(ctx, "- Original Issue: #")| == (if TruthyInt(originalIssue) then 1 else 0)
  {
    var p := "- Original Issue: #";
    var noIssue := IssueContext(prNumber, None, createdAt);
    ContextAvoids(prNumber, None, createdAt, p, 11);
    var front := ["---", "", "**Context:**", "- Original PR: #" + IntToString(prNumber)];
    var back := ["- Created: " + createdAt, "", LabelsLine, "", "---", "", IssueFooter];
    assert noIssue == front + back;
    WithPrefixAppend(front, back, p);
    if TruthyInt(originalIssue) {
      var line := "- Original Issue: #" + IntToString(originalIssue.value);
      assert line[..|p|] == p;
      assert WithPrefix([line], p) == [line];
      WithPrefixAppend(front, [line], p);
      WithPrefixAppend(front + [line], back, p);
    }
  }

  /** The issue requested for the deferred items. */
  datatype IssueRequest = IssueRequest(title: string, body: string, labels: seq<string>)

  /** The outcome of the issue-creation request: the new issue's number, or a request exception. */
  datatype IssueResponse = IssueCreated(number: int) | IssueRequestFailed

  const DeferredLabels: seq<string> := ["deferred", "technical-debt", "orchestratorai"]

  function DeferredIssueTitle(prNumber: int): string
  {
    "Deferred Tasks from PR #" + IntToString(prNumber)
  }

  /** The pull-request comment that links the new issue. */
  function LinkComment(issueNumber: int): string
  {
    "\U{1F4CB} Deferred tasks have been logged in issue #" + IntToString(issueNumber)
    + "\n\nThese items will be addressed in a future PR."
  }

  /**
   * `create_deferred_issue`: nothing is requested for a plan without deferred
   * items; otherwise the issue is requested, and on success its number is
   * recorded in the plan and a linking comment is posted on the pull request.
   * `response` stands for what the GitHub API answers to the request.
   */
  method CreateDeferredIssue(plan: RemediationPlan, prNumber: int, originalIssue: Option<int>, response: IssueResponse)
    returns (issue: Option<int>, request: Option<IssueRequest>, link: Option<string>)
    modifies plan`deferredIssueNumber
    ensures plan.deferredItems == [] ==> request == None && issue == None
    ensures plan.deferredItems != [] ==>
      request == Some(IssueRequest(DeferredIssueTitle(prNumber),
                                   DeferredIssueBody(plan.deferredItems, prNumber, originalIssue, plan.createdAt),
                                   DeferredLabels))
    ensures issue.Some? <==> plan.deferredItems != [] && response.IssueCreated?
    ensures issue.Some? ==>
      issue == Some(response.number) && plan.deferredIssueNumber == issue && link == Some(LinkComment(response.number))
    ensures issue.None? ==> plan.deferredIssueNumber == old(plan.deferredIssueNumber) && link == None
  {
    link := None;
    if plan.deferredItems == [] {
      issue, request := None, None;
      return;
    }
    var title := "Deferred Tasks from PR #" + IntToString(prNumber);
    var body := BuildDeferredIssueBody(plan, prNumber, originalIssue);
    request := Some(IssueRequest(title, body, ["deferred", "technical-debt", "orchestratorai"]));
    match response {
      case IssueCreated(n) =>
        plan.deferredIssueNumber := Some(n);
        link := Some(LinkComment(n));
        issue := Some(n);
      case IssueRequestFailed =>
        issue := None;
    }
  }

  // ---------------------------------------------------------------------------
  // The plan summary
  // ---------------------------------------------------------------------------

  /** `"=" * 60`, in two pieces of 30 for the same reason as the literals of the issue body. */
  const Rule: string := "==============================" + "=============================="
  const CriticalHeading := "\U{1F534} Critical: "
  const HighHeading := "\U{1F7E0} High Priority: "
  const MediumHeading := "\U{1F7E1} Medium Priority: "
  const LowHeading := "\U{1F7E2} Low Priority: "
  const DeferredHeading := "\U{23ED}\U{FE0F}  Deferred: "
  const BlockingVerdict := "\U{26A0}\U{FE0F}  **BLOCKING ITEMS PRESENT**" + " - Address before merge"
  const ClearVerdict := "\U{2713} No blocking items"
  const Bullet := "  - "

  /** A blocking item in the summary: its description cut to 80 characters, then `...`. */
  function BlockerLine(x: ReviewItem): string
  {
    Bullet + Take(x.description, 80) + "..."
  }

  function BlockerLines(items: seq<ReviewItem>): (r: seq<string>)
    ensures |r| == |items|
    ensures forall k :: 0 <= k < |items| ==> r[k] == BlockerLine(items[k])
  {
    if items == [] then [] else BlockerLines(items[..|items| - 1]) + [BlockerLine(items[|items| - 1])]
  }

  /** A heading with its count, the itemised lines when `listed`, then a blank line; nothing for an empty list. */
  function CountBlock(heading: string, items: seq<ReviewItem>, listed: bool): seq<string>
  {
    if items == [] then []
    else [heading + IntToString(|items|)] + (if listed then BlockerLines(items) else []) + [""]
  }

  function DeferredBlock(deferred: seq<ReviewItem>, issue: Option<int>): seq<string>
  {
    if deferred == [] then []
    else
      [DeferredHeading + IntToString(|deferred|)]
      + (if TruthyInt(issue) then ["   (Logged in issue #" + IntToString(issue.value) + ")"] else [])
      + [""]
  }

  /** The lines of `get_plan_summary` for the lists of a plan. */
  function SummaryLines(prNumber: int, critical: seq<ReviewItem>, high: seq<ReviewItem>, medium: seq<ReviewItem>,
                        low: seq<ReviewItem>, deferred: seq<ReviewItem>, issue: Option<int>): seq<string>
  {
    ["Remediation Plan for PR #" + IntToString(prNumber), Rule,
     "Total Items: " + IntToString(|critical| + |high| + |medium| + |low| + |deferred|), ""]
    + CountBlock(CriticalHeading, critical, true)
    + CountBlock(HighHeading, high, true)
    + CountBlock(MediumHeading, medium, false)
    + CountBlock(LowHeading, low, false)
    + DeferredBlock(deferred, issue)
    + [if critical != [] || high != [] then BlockingVerdict else ClearVerdict]
  }

  /** Appends one summary line per blocking item, in order. */
  method AppendBlockerLines(lines: seq<string>, items: seq<ReviewItem>) returns (out: seq<string>)
    ensures out == lines + BlockerLines(items)
  {
    out := lines;
    for k := 0 to |items|
      invariant out == lines + BlockerLines(items[..k])
    {
      assert items[..k + 1][..k] == items[..k];
      out := out + [Bullet + Take(items[k].description, 80) + "..."];
    }
    assert items[..|items|] == items;
  }

  /** Appends the count line, the blocker lines when `listed`, and a blank line, for a non-empty list. */
  method AppendCountBlock(lines: seq<string>, heading: string, items: seq<ReviewItem>, listed: bool)
    returns (out: seq<string>)
    ensures out == lines + CountBlock(heading, items, listed)
  {
    out := lines;
    if items != [] {
      ghost var count := [heading + IntToString(|items|)];
      ghost var body := if listed then BlockerLines(items) else [];
      out := out + [heading + IntToString(|items|)];
      if listed {
        out := AppendBlockerLines(out, items);
      }
      assert out == lines + count + body;
      out := out + [""];
      AppendAssoc(lines, count, body);
      AppendAssoc(lines, count + body, [""]);
    }
  }

  /** Appends the deferred count, the issue reference when one is recorded, and a blank line. */
  method AppendDeferredBlock(lines: seq<string>, deferred: seq<ReviewItem>, issue: Option<int>)
    returns (out: seq<string>)
    ensures out == lines + DeferredBlock(deferred, issue)
  {
    out := lines;
    if deferred != [] {
      out := out + [DeferredHeading + IntToString(|deferred|)];
      if TruthyInt(issue) {
        out := out + ["   (Logged in issue #" + IntToString(issue.value) + ")"];
      }
      out := out + [""];
    }
  }

  /** `get_plan_summary` */
  method GetPlanSummary(plan: RemediationPlan) returns (summary: string)
    ensures summary == Join(SummaryLines(plan.prNumber, plan.criticalItems, plan.highItems, plan.mediumItems,
                                         plan.lowItems, plan.deferredItems, plan.deferredIssueNumber), "\n")
  {
    var critical, high, medium, low, deferred := plan.criticalItems, plan.highItems, plan.mediumItems,
                                                 plan.lowItems, plan.deferredItems;
    var lines := ["Remediation Plan for PR #" + IntToString(plan.prNumber), Rule,
                  "Total Items: " + IntToString(plan.TotalItems()), ""];
    lines := AppendCountBlock(lines, CriticalHeading, critical, true);
    lines := AppendCountBlock(lines, HighHeading, high, true);
    lines := AppendCountBlock(lines, MediumHeading, medium, false);
    lines := AppendCountBlock(lines, LowHeading, low, false);
    lines := AppendDeferredBlock(lines, deferred, plan.deferredIssueNumber);
    ghost var body := lines;
    if plan.HasBlockingItems() {
      lines := lines + [BlockingVerdict];
    } else {
      lines := lines + [ClearVerdict];
    }
    assert lines == body + [if critical != [] || high != [] then BlockingVerdict else ClearVerdict];
    summary := Join(lines, "\n");
  }

  /** The summary ends with the blocking warning exactly when there is a Critical or High item. */
  lemma {:induction false} SummaryVerdict(prNumber: int, critical: seq<ReviewItem>, high: seq<ReviewItem>, medium: seq<ReviewItem>,
                       low: seq<ReviewItem>, deferred: seq<ReviewItem>, issue: Option<int>)
    ensures var lines := SummaryLines(prNumber, critical, high, medium, low, deferred, issue);
      |lines| >= 5 &&
      (lines[|lines| - 1] == BlockingVerdict <==> critical != [] || high != []) &&
      (lines[|lines| - 1] == ClearVerdict <==> critical == [] && high == [])
  {
    assert BlockingVerdict[0] != ClearVerdict[0];
  }

  lemma {:induction false} BlockerLinesAreBullets(items: seq<ReviewItem>)
    ensures WithPrefix(BlockerLines(items), Bullet) == BlockerLines(items)
  {
    if items != [] {
      var x := items[|items| - 1];
      BlockerLinesAreBullets(items[..|items| - 1]);
      WithPrefixAppend(BlockerLines(items[..|items| - 1]), [BlockerLine(x)], Bullet);
      assert BlockerLine(x)[..|Bullet|] == Bullet;
    }
  }

  lemma CountLineNoBullet(heading: string, n: int)
    requires heading != [] && heading[0] != ' '
    ensures WithPrefix([heading + IntToString(n)], Bullet) == []
  {
    var h := heading + IntToString(n);
    assert h[0] == heading[0];
    DiffersAt(h, Bullet, 0);
    NoneWithPrefix([h], Bullet);
  }

  /** A line without a bullet, then bullet lines, then a blank line: only the bullet lines carry one. */
  lemma FramedBullets(h: string, body: seq<string>)
    requires WithPrefix([h], Bullet) == [] && WithPrefix(body, Bullet) == body
    ensures WithPrefix([h] + body + [""], Bullet) == body
  {
    NoneWithPrefix([""], Bullet);
    WithPrefixAppend([h], body, Bullet);
    WithPrefixAppend([h] + body, [""], Bullet);
    assert [] + body + [] == body;
  }

  lemma {:induction false} CountBlockBullets(heading: string, items: seq<ReviewItem>, listed: bool)
    requires heading != [] && heading[0] != ' '
    ensures WithPrefix(CountBlock(heading, items, listed), Bullet) == if listed then BlockerLines(items) else []
  {
    if items != [] {
      var h := heading + IntToString(|items|);
      var body := if listed then BlockerLines(items) else [];
      assert CountBlock(heading, items, listed) == [h] + body + [""];
      CountLineNoBullet(heading, |items|);
      if listed {
        BlockerLinesAreBullets(items);
      }
      FramedBullets(h, body);
    }
  }

  lemma {:induction false} SummaryHeadNoBullets(prNumber: int, total: int)
    ensures WithPrefix(["Remediation Plan for PR #" + IntToString(prNumber), Rule, "Total Items: " + IntToString(total), ""],
                       Bullet) == []
  {
    NoneOfFour("Remediation Plan for PR #" + IntToString(prNumber), Rule, "Total Items: " + IntToString(total), "",
               Bullet, 0, 0);
  }

  lemma {:induction false} DeferredBlockNoBullets(deferred: seq<ReviewItem>, issue: Option<int>)
    ensures WithPrefix(DeferredBlock(deferred, issue), Bullet) == []
  {
    var d := DeferredBlock(deferred, issue);
    forall k | 0 <= k < |d| ensures !StartsWith(d[k], Bullet) {
      if k == 0 {
        assert d[0][0] == '\U{23ED}';
        DiffersAt(d[0], Bullet, 0);
      } else if TruthyInt(issue) && k == 1 {
        assert d[1][2] == ' ';
        DiffersAt(d[1], Bullet, 2);
      }
    }
    NoneWithPrefix(d, Bullet);
  }

  lemma {:induction false} VerdictNoBullets(blocking: bool)
    ensures WithPrefix([if blocking then BlockingVerdict else ClearVerdict], Bullet) == []
  {
    var v := [if blocking then BlockingVerdict else ClearVerdict];
    assert BlockingVerdict[0] == '\U{26A0}';
    assert ClearVerdict[0] == '\U{2713}';
    DiffersAt(v[0], Bullet, 0);
    NoneWithPrefix(v, Bullet);
  }

  lemma {:induction false} SummaryLinesParts(prNumber: int, critical: seq<ReviewItem>, high: seq<ReviewItem>, medium: seq<ReviewItem>,
                          low: seq<ReviewItem>, deferred: seq<ReviewItem>, issue: Option<int>)
    ensures SummaryLines(prNumber, critical, high, medium, low, deferred, issue)
      == ["Remediation Plan for PR #" + IntToString(prNumber), Rule,
          "Total Items: " + IntToString(|critical| + |high| + |medium| + |low| + |deferred|), ""]
         + CountBlock(CriticalHeading, critical, true) + CountBlock(HighHeading, high, true)
         + CountBlock(MediumHeading, medium, false) + CountBlock(LowHeading, low, false)
         + DeferredBlock(deferred, issue) + [if critical != [] || high != [] then BlockingVerdict else ClearVerdict]
  {
  }

  /** Lines with a prefix over seven consecutive parts, of which only the second and third hold any. */
  lemma {:induction false} WithPrefixSeven(head: seq<string>, c: seq<string>, h: seq<string>, m: seq<string>, l: seq<string>,
                        d: seq<string>, v: seq<string>, p: string)
    requires WithPrefix(head, p) == [] && WithPrefix(m, p) == [] && WithPrefix(l, p) == []
    requires WithPrefix(d, p) == [] && WithPrefix(v, p) == []
    ensures WithPrefix(head + c + h + m + l + d + v, p) == WithPrefix(c, p) + WithPrefix(h, p)
  {
    WithPrefixFour(head, c, h, m, p);
    WithPrefixFour(head + c + h + m, l, d, v, p);
    assert [] + WithPrefix(c, p) + WithPrefix(h, p) + [] + [] + [] + [] == WithPrefix(c, p) + WithPrefix(h, p);
  }

  /**
   * Only the Critical and High items are itemised in the summary, Critical
   * first and each in plan order; Medium, Low and Deferred are counted only.
   */
  lemma {:induction false} SummaryItemisesBlockers(prNumber: int, critical: seq<ReviewItem>, high: seq<ReviewItem>, medium: seq<ReviewItem>,
                                low: seq<ReviewItem>, deferred: seq<ReviewItem>, issue: Option<int>)
    ensures WithPrefix(SummaryLines(prNumber, critical, high, medium, low, deferred, issue), Bullet)
      == BlockerLines(critical) + BlockerLines(high)
  {
    var total := |critical| + |high| + |medium| + |low| + |deferred|;
    var head := ["Remediation Plan for PR #" + IntToString(prNumber), Rule, "Total Items: " + IntToString(total), ""];
    var c := CountBlock(CriticalHeading, critical, true);
    var h := CountBlock(HighHeading, high, true);
    var m := CountBlock(MediumHeading, medium, false);
    var l := CountBlock(LowHeading, low, false);
    var d := DeferredBlock(deferred, issue);
    var v := [if critical != [] || high != [] then BlockingVerdict else ClearVerdict];
    SummaryLinesParts(prNumber, critical, high, medium, low, deferred, issue);
    assert SummaryLines(prNumber, critical, high, medium, low, deferred, issue) == head + c + h + m + l + d + v;
    assert WithPrefix(head, Bullet) == [] by {
      SummaryHeadNoBullets(prNumber, total);
    }
    assert WithPrefix(c, Bullet) == BlockerLines(critical) by {
      assert CriticalHeading[0] == '\U{1F534}';
      CountBlockBullets(CriticalHeading, critical, true);
    }
    assert WithPrefix(h, Bullet) == BlockerLines(high) by {
      assert HighHeading[0] == '\U{1F7E0}';
      CountBlockBullets(HighHeading, high, true);
    }
    assert WithPrefix(m, Bullet) == [] by {
      assert MediumHeading[0] == '\U{1F7E1}';
      CountBlockBullets(MediumHeading, medium, false);
    }
    assert WithPrefix(l, Bullet) == [] by {
      assert LowHeading[0] == '\U{1F7E2}';
      CountBlockBullets(LowHeading, low, false);
    }
    assert WithPrefix(d, Bullet) == [] by {
      DeferredBlockNoBullets(deferred, issue);
    }
    assert WithPrefix(v, Bullet) == [] by {
      VerdictNoBullets(critical != [] || high != []);
    }
    WithPrefixSeven(head, c, h, m, l, d, v, Bullet);
  }
}
