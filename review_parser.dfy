/**
 * The review comment classifier (src/monitoring/review_parser.py): priority and
 * category detection by ordered keyword tables, the line-oriented Markdown
 * parsers (sections, bullets, numbered lists, generic list items with
 * continuation lines), reviewer attribution and the order-preserving bucketing
 * and filters over the parsed items.
 */
module ReviewParser {
  import opened Wrappers
  import opened Text

  /** The bot account both automated reviewers post under. */
  const ActionsBot := "github-actions[bot]"

  /** The Perplexity marker as review_parser.py spells it (magnifier emoji U+1F50D). */
  const ParserPerplexityMarker := "\U{1F50D} Perplexity Code Review"

  // ---------------------------------------------------------------------------
  // Review items
  // ---------------------------------------------------------------------------

  datatype Priority = Critical | High | Medium | Low | Deferred | Info
  {
    /** The enum value. */
    function Value(): string
    {
      match this
      case Critical => "Critical"
      case High => "High"
      case Medium => "Medium"
      case Low => "Low"
      case Deferred => "Deferred"
      case Info => "Info"
    }

    /** The bucket key `priority.value.lower()`. */
    function Key(): string
    {
      match this
      case Critical => "critical"
      case High => "high"
      case Medium => "medium"
      case Low => "low"
      case Deferred => "deferred"
      case Info => "info"
    }
  }

  /** The literal keys are the lower-cased enum values, so the bucket of `p` is `p.value.lower()`. */
  lemma KeyIsLowerValue(p: Priority)
    ensures p.Key() == Lower(p.Value())
  {
    match p
    case Critical =>
    case High =>
    case Medium =>
    case Low =>
    case Deferred =>
    case Info =>
  }

  datatype ReviewItem = ReviewItem(
    priority: Priority,
    description: string,
    file: Option<string>,
    line: Option<int>,
    reviewer: string,
    category: Option<string>,
    suggestion: Option<string>,
    rawText: string)
  {
    /** An item blocks the merge when it is Critical or High. */
    predicate IsBlocking()
    {
      priority == Critical || priority == High
    }
  }

  /**
   * The two regex extractors, left uninterpreted: the file/line reference a
   * text mentions and the suggested fix it contains.
   */
  datatype Extractors = Extractors(
    fileReference: string -> (Option<string>, Option<int>),
    suggestion: string -> Option<string>)

  /**
   * A fetched comment.  `path` is `None` when the comment has no `path` key and
   * `Some(None)` when the key holds null; `line` and `originalLine` are `None`
   * when absent or null.
   */
  datatype RawComment = RawComment(
    login: string,
    body: string,
    path: Option<Option<string>>,
    line: Option<int>,
    originalLine: Option<int>)

  // ---------------------------------------------------------------------------
  // Ordered lookup tables
  // ---------------------------------------------------------------------------

  /** The order in which both priority tables are consulted. */
  const PriorityOrder: seq<Priority> := [Critical, High, Medium, Low, Deferred]

  /** The explicit markers `[x]` and `**x**` of each priority. */
  function Markers(p: Priority): seq<string>
  {
    match p
    case Critical => ["[critical]", "**critical**"]
    case High => ["[high]", "**high**"]
    case Medium => ["[medium]", "**medium**"]
    case Low => ["[low]", "**low**"]
    case Deferred => ["[deferred]", "**deferred**"]
    case Info => []
  }

  /** `PRIORITY_KEYWORDS` */
  function PriorityKeywords(p: Priority): seq<string>
  {
    match p
    case Critical => ["critical", "security", "vulnerability", "exploit", "data loss", "crash", "fatal", "breaking"]
    case High => ["high priority", "important", "must fix", "required", "bug", "error", "incorrect", "broken"]
    case Medium => ["medium", "should fix", "improvement", "enhance", "refactor", "cleanup"]
    case Low => ["low", "minor", "nice to have", "consider", "suggestion", "optional"]
    case Deferred => ["defer", "future", "later", "follow-up", "separate pr", "out of scope", "technical debt"]
    case Info => []
  }

  /** The order of `CATEGORY_KEYWORDS`. */
  const CategoryOrder: seq<string> := ["security", "performance", "bug", "style", "testing", "documentation"]

  /** `CATEGORY_KEYWORDS` */
  function CategoryKeywords(c: string): seq<string>
  {
    if c == "security" then ["security", "vulnerability", "auth", "xss", "injection"]
    else if c == "performance" then ["performance", "slow", "optimize", "efficiency", "memory"]
    else if c == "bug" then ["bug", "error", "incorrect", "wrong", "broken"]
    else if c == "style" then ["style", "formatting", "naming", "convention"]
    else if c == "testing" then ["test", "coverage", "edge case"]
    else if c == "documentation" then ["doc", "comment", "readme", "jsdoc"]
    else []
  }

  /** `any(keyword in text for keyword in keys)` */
  predicate AnyIn(keys: seq<string>, text: string)
  {
    exists i | 0 <= i < |keys| :: Contains(text, keys[i])
  }

  /** Entry `i` is the first entry of the ordered table with a keyword in `text`. */
  predicate FirstHitAt<K>(order: seq<K>, keys: K -> seq<string>, text: string, i: int)
  {
    0 <= i < |order| && AnyIn(keys(order[i]), text)
    && forall j :: 0 <= j < i ==> !AnyIn(keys(order[j]), text)
  }

  lemma FirstHitAtUnique<K>(order: seq<K>, keys: K -> seq<string>, text: string, i: int, j: int)
    requires FirstHitAt(order, keys, text, i) && FirstHitAt(order, keys, text, j)
    ensures i == j
  {
  }

  /** The first entry in table order whose keyword list hits `text`. */
  function FirstHit<K(==)>(order: seq<K>, keys: K -> seq<string>, text: string): (r: Option<K>)
    ensures r.None? <==> forall i :: 0 <= i < |order| ==> !AnyIn(keys(order[i]), text)
    ensures r.Some? ==> exists i :: FirstHitAt(order, keys, text, i) && order[i] == r.value
    ensures r.Some? ==> r.value in order
    decreases |order|
  {
    if order == [] then None
    else if AnyIn(keys(order[0]), text) then
      assert FirstHitAt(order, keys, text, 0);
      Some(order[0])
    else
      var r := FirstHit(order[1..], keys, text);
      if r.Some? then
        var i :| FirstHitAt(order[1..], keys, text, i) && order[1..][i] == r.value;
        assert FirstHitAt(order, keys, text, i + 1);
        r
      else
        assert forall i :: 0 <= i < |order| ==> !AnyIn(keys(order[i]), text) by {
          forall i | 0 <= i < |order| ensures !AnyIn(keys(order[i]), text) {
            if i > 0 {
              assert order[i] == order[1..][i - 1];
            }
          }
        }
        r
  }

  /** `_detect_priority` on the lower-cased text. */
  function DetectPriority(text: string): (p: Priority)
    ensures p != Info
  {
    match FirstHit(PriorityOrder, Markers, text)
    case Some(p) => p
    case None =>
      match FirstHit(PriorityOrder, PriorityKeywords, text)
      case Some(p) => p
      case None => Medium
  }

  /**
   * The three stages of priority detection: the first explicit marker in table
   * order wins; without markers, the first keyword row with a hit; otherwise Medium.
   */
  lemma DetectPriorityStages(text: string)
    ensures forall i :: FirstHitAt(PriorityOrder, Markers, text, i) ==> DetectPriority(text) == PriorityOrder[i]
    ensures (forall i :: 0 <= i < |PriorityOrder| ==> !AnyIn(Markers(PriorityOrder[i]), text)) ==>
              forall i :: FirstHitAt(PriorityOrder, PriorityKeywords, text, i) ==> DetectPriority(text) == PriorityOrder[i]
    ensures (forall i :: 0 <= i < |PriorityOrder| ==>
               !AnyIn(Markers(PriorityOrder[i]), text) && !AnyIn(PriorityKeywords(PriorityOrder[i]), text)) ==>
              DetectPriority(text) == Medium
  {
    forall i | FirstHitAt(PriorityOrder, Markers, text, i) ensures DetectPriority(text) == PriorityOrder[i] {
      var r := FirstHit(PriorityOrder, Markers, text);
      var j :| FirstHitAt(PriorityOrder, Markers, text, j) && PriorityOrder[j] == r.value;
      FirstHitAtUnique(PriorityOrder, Markers, text, i, j);
    }
    if forall i :: 0 <= i < |PriorityOrder| ==> !AnyIn(Markers(PriorityOrder[i]), text) {
      forall i | FirstHitAt(PriorityOrder, PriorityKeywords, text, i) ensures DetectPriority(text) == PriorityOrder[i] {
        var r := FirstHit(PriorityOrder, PriorityKeywords, text);
        var j :| FirstHitAt(PriorityOrder, PriorityKeywords, text, j) && PriorityOrder[j] == r.value;
        FirstHitAtUnique(PriorityOrder, PriorityKeywords, text, i, j);
      }
    }
  }

  /**
   * "consider" sits in the Low row, which precedes the Deferred row: a text that
   * says "consider ... later" with no marker and no Critical, High or Medium
   * keyword is Low, not Deferred.
   */
  lemma ConsiderOutranksLater(text: string)
    requires Contains(text, "consider") && Contains(text, "later")
    requires forall i :: 0 <= i < |PriorityOrder| ==> !AnyIn(Markers(PriorityOrder[i]), text)
    requires !AnyIn(PriorityKeywords(Critical), text) && !AnyIn(PriorityKeywords(High), text)
             && !AnyIn(PriorityKeywords(Medium), text)
    ensures DetectPriority(text) == Low
    ensures AnyIn(PriorityKeywords(Deferred), text)
  {
    assert PriorityKeywords(Low)[3] == "consider";
    assert AnyIn(PriorityKeywords(Low), text);
    assert PriorityKeywords(Deferred)[2] == "later";
    assert FirstHitAt(PriorityOrder, PriorityKeywords, text, 3);
    DetectPriorityStages(text);
  }

  /** `_detect_category` on the lower-cased text: the first category with a keyword hit. */
  function DetectCategory(text: string): (c: Option<string>)
    ensures c.Some? ==> c.value in CategoryOrder
    ensures c.Some? <==> exists i :: FirstHitAt(CategoryOrder, CategoryKeywords, text, i)
    ensures forall i :: FirstHitAt(CategoryOrder, CategoryKeywords, text, i) ==> c == Some(CategoryOrder[i])
  {
    var r := FirstHit(CategoryOrder, CategoryKeywords, text);
    assert forall i :: FirstHitAt(CategoryOrder, CategoryKeywords, text, i) ==> r == Some(CategoryOrder[i]) by {
      forall i | FirstHitAt(CategoryOrder, CategoryKeywords, text, i) ensures r == Some(CategoryOrder[i]) {
        var j :| FirstHitAt(CategoryOrder, CategoryKeywords, text, j) && CategoryOrder[j] == r.value;
        FirstHitAtUnique(CategoryOrder, CategoryKeywords, text, i, j);
      }
    }
    r
  }

  /** `_create_item_from_text`: detection runs on the lower-cased text, extraction on the text itself. */
  function CreateItem(text: string, ex: Extractors): (item: ReviewItem)
    ensures item.description == text && item.rawText == text && item.reviewer == "unknown"
    ensures item.priority != Info
    ensures item.priority == DetectPriority(Lower(text)) && item.category == DetectCategory(Lower(text))
  {
    var (file, line) := ex.fileReference(text);
    ReviewItem(DetectPriority(Lower(text)), text, file, line, "unknown",
               DetectCategory(Lower(text)), ex.suggestion(text), text)
  }

  // ---------------------------------------------------------------------------
  // Line predicates
  // ---------------------------------------------------------------------------

  function Lines(text: string): seq<string>
  {
    Split(text, '\n')
  }

  /** `re.match(r'^[-*]\s+', line)` */
  predicate IsBullet(line: string)
  {
    |line| >= 2 && (line[0] == '-' || line[0] == '*') && IsSpace(line[1])
  }

  /** `re.match(r'^[-*\d\.]\s+', line)`: one marker character, then whitespace. */
  predicate IsListItem(line: string)
  {
    |line| >= 2 && (line[0] == '-' || line[0] == '*' || IsDigit(line[0]) || line[0] == '.') && IsSpace(line[1])
  }

  /** The text after a one-character marker and its whitespace. */
  function MarkerText(line: string): string
    requires |line| >= 1
  {
    TrimStart(line[1..])
  }

  /** The length of the leading run of digits. */
  function DigitRun(s: string): (n: nat)
    ensures n <= |s|
    ensures n == |s| || !IsDigit(s[n])
  {
    if s != [] && IsDigit(s[0]) then 1 + DigitRun(s[1..]) else 0
  }

  /** `re.match(r'^\d+\.\s+', line)` */
  predicate IsNumbered(line: string)
  {
    var d := DigitRun(line);
    0 < d && d + 1 < |line| && line[d] == '.' && IsSpace(line[d + 1])
  }

  function NumberedText(line: string): string
    requires IsNumbered(line)
  {
    TrimStart(line[DigitRun(line) + 1..])
  }

  /** The index of the first `*` at or after `from`, or `|s|`. */
  function StarFrom(s: string, from: nat): (j: nat)
    requires from <= |s|
    ensures from <= j <= |s|
    ensures j == |s| || s[j] == '*'
    decreases |s| - from
  {
    if from == |s| || s[from] == '*' then from else StarFrom(s, from + 1)
  }

  /** The run before the star found holds no star. */
  lemma {:induction false} StarFromSkipsNonStars(s: string, from: nat)
    requires from <= |s|
    ensures forall k :: from <= k < StarFrom(s, from) ==> s[k] != '*'
    decreases |s| - from
  {
    if from < |s| && s[from] != '*' {
      StarFromSkipsNonStars(s, from + 1);
    }
  }

  /**
   * `re.match(r'\*\*([^*]+)\*\*:\s*(.+)', text)`: the bold category and the
   * description.  `(.+)` takes the rest after the whitespace, or, when only
   * whitespace follows the colon, the last whitespace character.
   */
  function BoldCategory(text: string): Option<(string, string)>
  {
    if !StartsWith(text, "**") then None
    else
      var j := StarFrom(text, 2);
      if j == 2 || !OccursAt(text, "**:", j) then None
      else
        var rest := text[j + 3..];
        var desc := TrimStart(rest);
        if desc != [] then Some((text[2..j], desc))
        else if rest != [] then Some((text[2..j], rest[|rest| - 1..]))
        else None
  }

  lemma BoldCategoryOf(text: string)
    requires StartsWith(text, "**") && StarFrom(text, 2) > 2 && OccursAt(text, "**:", StarFrom(text, 2))
    requires TrimStart(text[StarFrom(text, 2) + 3..]) != []
    ensures BoldCategory(text) == Some((text[2..StarFrom(text, 2)], TrimStart(text[StarFrom(text, 2) + 3..])))
  {
  }

  /** A header line of the section splitter. */
  predicate IsHeader(line: string)
  {
    StartsWith(line, "#")
  }

  function DropHashes(s: string): (r: string)
    ensures r == [] || r[0] != '#'
  {
    s[HashesFrom(s, 0)..]
  }

  /** The index of the first character at or after `i` that is not '#'. */
  function HashesFrom(s: string, i: nat): (j: nat)
    requires i <= |s|
    ensures i <= j <= |s|
    ensures j == |s| || s[j] != '#'
    decreases |s| - i
  {
    if i < |s| && s[i] == '#' then HashesFrom(s, i + 1) else i
  }

  /** `re.sub(r'^#+\s*', '', line).strip()` */
  function HeaderName(line: string): string
  {
    Strip(DropHashes(line))
  }

  // ---------------------------------------------------------------------------
  // Section splitting
  // ---------------------------------------------------------------------------

  /** The section named `current` (when non-empty) is stored under its lower-cased name. */
  function CloseSection(done: map<string, string>, current: string, content: seq<string>): map<string, string>
  {
    if current != "" then done[Lower(current) := Join(content, "\n")] else done
  }

  /** What the splitter builds from line `i` on, given its state before line `i`. */
  function SectionsAt(lines: seq<string>, i: nat, done: map<string, string>, current: string,
                      content: seq<string>): map<string, string>
    decreases |lines| - i
  {
    if i >= |lines| then CloseSection(done, current, content)
    else if IsHeader(lines[i]) then SectionsAt(lines, i + 1, CloseSection(done, current, content), HeaderName(lines[i]), [])
    else if current != "" then SectionsAt(lines, i + 1, done, current, content + [lines[i]])
    else SectionsAt(lines, i + 1, done, current, content)
  }

  /** `_split_into_sections` */
  function Sections(text: string): map<string, string>
  {
    SectionsAt(Lines(text), 0, map[], "", [])
  }

  method SplitIntoSections(text: string) returns (sections: map<string, string>)
    ensures sections == Sections(text)
  {
    var lines := Lines(text);
    sections := map[];
    var current := "";
    var content: seq<string> := [];
    var i := 0;
    while i < |lines|
      invariant 0 <= i <= |lines|
      invariant SectionsAt(lines, i, sections, current, content) == Sections(text)
    {
      var line := lines[i];
      if StartsWith(line, "#") {
        if current != "" {
          sections := sections[Lower(current) := Join(content, "\n")];
        }
        current := Strip(DropHashes(line));
        content := [];
      } else if current != "" {
        content := content + [line];
      }
      i := i + 1;
    }
    if current != "" {
      sections := sections[Lower(current) := Join(content, "\n")];
    }
  }

  /** Line `h` is a header whose non-empty name has key `k`. */
  predicate HeadsSection(lines: seq<string>, h: int, k: string)
  {
    0 <= h < |lines| && IsHeader(lines[h]) && HeaderName(lines[h]) != "" && Lower(HeaderName(lines[h])) == k
  }

  /** The lines from `i` up to the next header. */
  function BodyAt(lines: seq<string>, i: nat): seq<string>
    decreases |lines| - i
  {
    if i >= |lines| || IsHeader(lines[i]) then [] else [lines[i]] + BodyAt(lines, i + 1)
  }

  /** The index of the last header at or after `i` with key `k`, or -1. */
  function LastHeaderFrom(lines: seq<string>, k: string, i: nat): (h: int)
    ensures h == -1 || (i <= h && HeadsSection(lines, h, k))
    decreases |lines| - i
  {
    if i >= |lines| then -1
    else
      var r := LastHeaderFrom(lines, k, i + 1);
      if r >= 0 then r else if HeadsSection(lines, i, k) then i else -1
  }

  /** No header with key `k` comes after the one `LastHeaderFrom` finds, and there is none at all when it finds none. */
  lemma {:induction false} LastHeaderFromIsLast(lines: seq<string>, k: string, i: nat)
    ensures forall g :: i <= g < |lines| && LastHeaderFrom(lines, k, i) < g ==> !HeadsSection(lines, g, k)
    decreases |lines| - i
  {
    if i < |lines| {
      LastHeaderFromIsLast(lines, k, i + 1);
    }
  }

  /** What the splitter's result from line `i` on holds for key `k`. */
  ghost predicate SectionFact(lines: seq<string>, i: nat, done: map<string, string>,
                              current: string, content: seq<string>, k: string)
  {
    var m := SectionsAt(lines, i, done, current, content);
    var h := LastHeaderFrom(lines, k, i);
    var open := current != "" && Lower(current) == k;
    (k in m <==> h >= 0 || open || k in done)
    && (h >= 0 ==> m[k] == Join(BodyAt(lines, h + 1), "\n"))
    && (h < 0 && open ==> m[k] == Join(content + BodyAt(lines, i), "\n"))
    && (h < 0 && !open && k in done ==> m[k] == done[k])
  }

  lemma {:induction false} SectionsAtContent(lines: seq<string>, i: nat, done: map<string, string>,
                                             current: string, content: seq<string>, k: string)
    ensures SectionFact(lines, i, done, current, content, k)
    decreases |lines| - i, 1
  {
    if i >= |lines| {
      assert content + BodyAt(lines, i) == content;
    } else if IsHeader(lines[i]) {
      HeaderStep(lines, i, done, current, content, k);
    } else {
      BodyStep(lines, i, done, current, content, k);
    }
  }

  /** A header closes the open section and opens its own. */
  lemma {:induction false} HeaderStep(lines: seq<string>, i: nat, done: map<string, string>,
                                      current: string, content: seq<string>, k: string)
    requires i < |lines| && IsHeader(lines[i])
    ensures var m := SectionsAt(lines, i, done, current, content);
    var h := LastHeaderFrom(lines, k, i);
    var open := current != "" && Lower(current) == k;
    (k in m <==> h >= 0 || open || k in done)
    ensures var m := SectionsAt(lines, i, done, current, content);
    var h := LastHeaderFrom(lines, k, i);
    (h >= 0 ==> m[k] == Join(BodyAt(lines, h + 1), "\n"))
    ensures var m := SectionsAt(lines, i, done, current, content);
    var h := LastHeaderFrom(lines, k, i);
    var open := current != "" && Lower(current) == k;
    (h < 0 && open ==> m[k] == Join(content + BodyAt(lines, i), "\n"))
    ensures var m := SectionsAt(lines, i, done, current, content);
    var h := LastHeaderFrom(lines, k, i);
    var open := current != "" && Lower(current) == k;
    (h < 0 && !open && k in done ==> m[k] == done[k])
    decreases |lines| - i, 0
  {
    var closed := CloseSection(done, current, content);
    var name := HeaderName(lines[i]);
    SectionsAtContent(lines, i + 1, closed, name, [], k);
    CloseSectionKey(done, current, content, k);
    var m := SectionsAt(lines, i, done, current, content);
    assert m == SectionsAt(lines, i + 1, closed, name, []);
    var r := LastHeaderFrom(lines, k, i + 1);
    var h := LastHeaderFrom(lines, k, i);
    var opens := name != "" && Lower(name) == k;
    assert opens == HeadsSection(lines, i, k);
    assert h == (if r >= 0 then r else if opens then i else -1);
    if r < 0 && opens {
      assert [] + BodyAt(lines, i + 1) == BodyAt(lines, i + 1);
    }
    if r < 0 && !opens {
      assert BodyAt(lines, i) == [];
      assert content + BodyAt(lines, i) == content;
    }
  }

  /** Closing the open section records it under its lower-cased name and leaves other keys alone. */
  lemma CloseSectionKey(done: map<string, string>, current: string, content: seq<string>, k: string)
    ensures var closed, open := CloseSection(done, current, content), current != "" && Lower(current) == k;
            (k in closed <==> open || k in done)
            && (open ==> closed[k] == Join(content, "\n"))
            && (!open && k in done ==> closed[k] == done[k])
  {
  }

  /** A body line joins the open section, or is dropped when none is open. */
  lemma {:induction false} BodyStep(lines: seq<string>, i: nat, done: map<string, string>,
                                    current: string, content: seq<string>, k: string)
    requires i < |lines| && !IsHeader(lines[i])
    ensures SectionFact(lines, i, done, current, content, k)
    decreases |lines| - i, 0
  {
    var next := if current != "" then content + [lines[i]] else content;
    SectionsAtContent(lines, i + 1, done, current, next, k);
    assert SectionsAt(lines, i, done, current, content) == SectionsAt(lines, i + 1, done, current, next);
    assert !HeadsSection(lines, i, k);
    assert LastHeaderFrom(lines, k, i) == LastHeaderFrom(lines, k, i + 1);
    if current != "" && LastHeaderFrom(lines, k, i + 1) < 0 {
      assert BodyAt(lines, i) == [lines[i]] + BodyAt(lines, i + 1);
      AppendAssoc(content, [lines[i]], BodyAt(lines, i + 1));
    }
  }

  /**
   * The section splitter's contract: a key exists exactly when some header line
   * has that lower-cased non-empty name, and its content is the '\n'-joined
   * lines up to the next header after the LAST such header.  Text before the
   * first header belongs to no section.
   */
  lemma SectionsContent(text: string, k: string)
    ensures var lines := Lines(text);
            (k in Sections(text) <==> exists h :: HeadsSection(lines, h, k))
            && forall h :: HeadsSection(lines, h, k) && (forall g :: h < g < |lines| ==> !HeadsSection(lines, g, k)) ==>
                 Sections(text)[k] == Join(BodyAt(lines, h + 1), "\n")
  {
    var lines := Lines(text);
    SectionsAtContent(lines, 0, map[], "", [], k);
    LastHeaderFromIsLast(lines, k, 0);
    var last := LastHeaderFrom(lines, k, 0);
    forall h | HeadsSection(lines, h, k) ensures 0 <= h <= last {
    }
    forall h | HeadsSection(lines, h, k) && (forall g :: h < g < |lines| ==> !HeadsSection(lines, g, k))
      ensures h == last
    {
    }
  }

  // ---------------------------------------------------------------------------
  // Bullet and numbered lists
  // ---------------------------------------------------------------------------

  /** The items one stripped line contributes to `_parse_bullet_list`. */
  function BulletLine(line: string, ex: Extractors): seq<ReviewItem>
  {
    if !IsBullet(line) then []
    else
      var text := MarkerText(line);
      match BoldCategory(text)
      case Some((cat, desc)) => [CreateItem(desc, ex).(category := Some(Lower(cat)))]
      case None => [CreateItem(text, ex)]
  }

  function BulletItems(lines: seq<string>, ex: Extractors): seq<ReviewItem>
  {
    if lines == [] then []
    else BulletItems(lines[..|lines| - 1], ex) + BulletLine(Strip(lines[|lines| - 1]), ex)
  }

  method ParseBulletList(text: string, ex: Extractors) returns (items: seq<ReviewItem>)
    ensures items == BulletItems(Lines(text), ex)
  {
    var lines := Lines(text);
    items := [];
    for i := 0 to |lines|
      invariant items == BulletItems(lines[..i], ex)
    {
      assert lines[..i + 1][..i] == lines[..i];
      var line := Strip(lines[i]);
      if IsBullet(line) {
        var body := MarkerText(line);
        var bold := BoldCategory(body);
        if bold.Some? {
          var item := CreateItem(bold.value.1, ex);
          item := item.(category := Some(Lower(bold.value.0)));
          items := items + [item];
        } else {
          items := items + [CreateItem(body, ex)];
        }
      }
    }
    assert lines[..|lines|] == lines;
  }

  /** A text with no surrounding whitespace is its own strip. */
  lemma StripTrimmed(s: string)
    requires s != [] && !IsSpace(s[0]) && !IsSpace(s[|s| - 1])
    ensures Strip(s) == s
  {
  }

  /**
   * A bullet `- **Cat**: desc` yields one item whose description is `desc` and
   * whose category is the lower-cased `Cat`.
   */
  lemma BoldBullet(cat: string, desc: string, ex: Extractors)
    requires cat != "" && '*' !in cat
    requires desc != "" && !IsSpace(desc[0]) && !IsSpace(desc[|desc| - 1])
    ensures BulletLine(Strip("- " + ("**" + cat + "**: " + desc)), ex)
            == [CreateItem(desc, ex).(category := Some(Lower(cat)))]
  {
    var text := "**" + cat + "**: " + desc;
    var line := "- " + text;
    StripTrimmed(line);
    assert IsBullet(line);
    assert line[1..] == " " + text;
    TrimStartSpaceThen(text);
    assert MarkerText(line) == text;
    BoldText(cat, desc);
    assert BulletLine(line, ex) == [CreateItem(desc, ex).(category := Some(Lower(cat)))];
  }

  /** `**Cat**: desc` splits into the category `Cat` and the description `desc`. */
  lemma BoldText(cat: string, desc: string)
    requires cat != "" && '*' !in cat
    requires desc != "" && !IsSpace(desc[0])
    ensures BoldCategory("**" + cat + "**: " + desc) == Some((cat, desc))
  {
    var tail := "**: " + desc;
    var text := "**" + cat + tail;
    assert text == "**" + cat + "**: " + desc;
    assert text[..2] == "**";
    var j := StarFrom(text, 2);
    StarFromSkipsNonStars(text, 2);
    assert text[2 + |cat|] == '*';
    forall m | 2 <= m < 2 + |cat| ensures text[m] != '*' {
      assert text[m] == cat[m - 2];
    }
    assert j == 2 + |cat|;
    assert text[j..j + 3] == "**:";
    assert text[2..j] == cat;
    assert text[j + 3..] == " " + desc;
    TrimStartSpaceThen(desc);
    BoldCategoryOf(text);
  }

  /** The items one stripped line contributes to `_parse_numbered_list`. */
  function NumberedLine(line: string, ex: Extractors): seq<ReviewItem>
  {
    if IsNumbered(line) then [CreateItem(NumberedText(line), ex)] else []
  }

  function NumberedItems(lines: seq<string>, ex: Extractors): seq<ReviewItem>
  {
    if lines == [] then []
    else NumberedItems(lines[..|lines| - 1], ex) + NumberedLine(Strip(lines[|lines| - 1]), ex)
  }

  method ParseNumberedList(text: string, ex: Extractors) returns (items: seq<ReviewItem>)
    ensures items == NumberedItems(Lines(text), ex)
  {
    var lines := Lines(text);
    items := [];
    for i := 0 to |lines|
      invariant items == NumberedItems(lines[..i], ex)
    {
      assert lines[..i + 1][..i] == lines[..i];
      var line := Strip(lines[i]);
      if IsNumbered(line) {
        items := items + [CreateItem(NumberedText(line), ex)];
      }
    }
    assert lines[..|lines|] == lines;
  }

  /** A line `N. text` yields one item whose description is `text`. */
  lemma NumberedEntry(n: string, text: string, ex: Extractors)
    requires n != [] && forall i :: 0 <= i < |n| ==> IsDigit(n[i])
    requires text != "" && !IsSpace(text[0]) && !IsSpace(text[|text| - 1])
    ensures NumberedLine(Strip(n + ". " + text), ex) == [CreateItem(text, ex)]
  {
    var line := n + ". " + text;
    StripTrimmed(line);
    DigitRunPrefix(n, ". " + text);
    assert line == n + (". " + text);
    assert line[|n| + 1..] == " " + text;
    TrimStartSpaceThen(text);
  }

  lemma {:induction false} DigitRunPrefix(n: string, rest: string)
    requires forall i :: 0 <= i < |n| ==> IsDigit(n[i])
    requires rest != [] && !IsDigit(rest[0])
    ensures DigitRun(n + rest) == |n|
    decreases |n|
  {
    if n == [] {
      assert n + rest == rest;
    } else {
      assert (n + rest)[1..] == n[1..] + rest;
      DigitRunPrefix(n[1..], rest);
    }
  }

  // ---------------------------------------------------------------------------
  // Generic comments
  // ---------------------------------------------------------------------------

  /** The stripped lines the generic parser looks at: non-empty and not headers. */
  function Significant(lines: seq<string>): (r: seq<string>)
    ensures forall k :: 0 <= k < |r| ==> r[k] != "" && !StartsWith(r[k], "#")
  {
    if lines == [] then []
    else
      var l := Strip(lines[|lines| - 1]);
      Significant(lines[..|lines| - 1]) + (if l == "" || StartsWith(l, "#") then [] else [l])
  }

  /**
   * The list items of a generic comment: each list line opens a group with its
   * text, each following non-list line is appended to the open group, and
   * lines before the first list line are dropped.
   */
  function Groups(sig: seq<string>): (gs: seq<seq<string>>)
    ensures forall k :: 0 <= k < |gs| ==> gs[k] != []
  {
    if sig == [] then []
    else
      var gs := Groups(sig[..|sig| - 1]);
      var l := sig[|sig| - 1];
      if IsListItem(l) then gs + [[MarkerText(l)]]
      else if gs == [] then gs
      else gs[..|gs| - 1] + [gs[|gs| - 1] + [l]]
  }

  function CountListItems(sig: seq<string>): nat
  {
    if sig == [] then 0
    else CountListItems(sig[..|sig| - 1]) + (if IsListItem(sig[|sig| - 1]) then 1 else 0)
  }

  /** One group per list line, each opened by that line's text. */
  lemma {:induction false} GroupsCount(sig: seq<string>)
    ensures |Groups(sig)| == CountListItems(sig)
  {
    if sig != [] {
      GroupsCount(sig[..|sig| - 1]);
    }
  }

  /** Without any list line there are no groups: free text alone yields no item. */
  lemma {:induction false} NoListNoGroups(sig: seq<string>)
    requires forall k :: 0 <= k < |sig| ==> !IsListItem(sig[k])
    ensures Groups(sig) == []
  {
    if sig != [] {
      NoListNoGroups(sig[..|sig| - 1]);
    }
  }

  /** One item per group, its text the group joined with single spaces. */
  function GroupItems(gs: seq<seq<string>>, ex: Extractors): (items: seq<ReviewItem>)
    ensures |items| == |gs|
  {
    seq(|gs|, k requires 0 <= k < |gs| => CreateItem(Join(gs[k], " "), ex))
  }

  /** `parse_generic_comment`: the list items, or the whole body as one item. */
  function GenericItems(body: string, ex: Extractors): (items: seq<ReviewItem>)
    ensures |items| >= 1
    ensures Groups(Significant(Lines(body))) == [] ==> items == [CreateItem(body, ex)]
  {
    var gs := Groups(Significant(Lines(body)));
    if gs == [] then [CreateItem(body, ex)] else GroupItems(gs, ex)
  }

  method ParseGenericComment(body: string, ex: Extractors) returns (items: seq<ReviewItem>)
    ensures items == GenericItems(body, ex)
  {
    var lines := Lines(body);
    items := [];
    var current: seq<string> := [];
    var i := 0;
    while i < |lines|
      invariant 0 <= i <= |lines|
      invariant items == Flushed(Groups(Significant(lines[..i])), ex)
      invariant current == OpenGroup(Groups(Significant(lines[..i])))
    {
      SignificantSnoc(lines, i);
      ghost var sig := Significant(lines[..i]);
      var line := Strip(lines[i]);
      if line == "" || StartsWith(line, "#") {
        assert Significant(lines[..i + 1]) == sig;
      } else {
        assert Significant(lines[..i + 1]) == sig + [line];
        GroupsStep(sig, line, ex);
        if IsListItem(line) {
          if current != [] {
            items := items + [CreateItem(Join(current, " "), ex)];
          }
          current := [MarkerText(line)];
        } else if current != [] {
          current := current + [line];
        }
      }
      i := i + 1;
    }
    assert lines[..|lines|] == lines;
    FlushedLast(Groups(Significant(lines)), ex);
    if current != [] {
      items := items + [CreateItem(Join(current, " "), ex)];
    }
    if items == [] {
      items := [CreateItem(body, ex)];
    }
  }

  /** The items already emitted while scanning: one per group except the open one. */
  function Flushed(gs: seq<seq<string>>, ex: Extractors): seq<ReviewItem>
  {
    if gs == [] then [] else GroupItems(gs[..|gs| - 1], ex)
  }

  /** The group still being collected: the last one, or none. */
  function OpenGroup(gs: seq<seq<string>>): seq<string>
  {
    if gs == [] then [] else gs[|gs| - 1]
  }

  /** One more significant line either opens a group (emitting the open one), extends the open group, or is dropped. */
  lemma GroupsStep(sig: seq<string>, l: string, ex: Extractors)
    ensures var gs, next := Groups(sig), Groups(sig + [l]);
            if IsListItem(l) then
              Flushed(next, ex) == Flushed(gs, ex) + (if OpenGroup(gs) == [] then [] else [CreateItem(Join(OpenGroup(gs), " "), ex)])
              && OpenGroup(next) == [MarkerText(l)]
            else if OpenGroup(gs) == [] then next == gs
            else Flushed(next, ex) == Flushed(gs, ex) && OpenGroup(next) == OpenGroup(gs) + [l]
  {
    assert (sig + [l])[..|sig|] == sig;
    var gs := Groups(sig);
    if gs != [] {
      assert gs[|gs| - 1] != [];
      if IsListItem(l) {
        assert (gs + [[MarkerText(l)]])[..|gs|] == gs;
        GroupItemsSnoc(gs[..|gs| - 1], gs[|gs| - 1], ex);
        assert gs[..|gs| - 1] + [gs[|gs| - 1]] == gs;
      } else {
        var next := gs[..|gs| - 1] + [gs[|gs| - 1] + [l]];
        assert next[..|next| - 1] == gs[..|gs| - 1];
      }
    }
  }

  /** Emitting the open group at the end gives one item per group. */
  lemma FlushedLast(gs: seq<seq<string>>, ex: Extractors)
    requires forall k :: 0 <= k < |gs| ==> gs[k] != []
    ensures OpenGroup(gs) == [] <==> gs == []
    ensures gs != [] ==> Flushed(gs, ex) + [CreateItem(Join(OpenGroup(gs), " "), ex)] == GroupItems(gs, ex)
  {
    if gs != [] {
      assert gs[|gs| - 1] != [];
      GroupItemsSnoc(gs[..|gs| - 1], gs[|gs| - 1], ex);
      assert gs[..|gs| - 1] + [gs[|gs| - 1]] == gs;
    }
  }

  lemma SignificantSnoc(lines: seq<string>, i: int)
    requires 0 <= i < |lines|
    ensures var l := Strip(lines[i]);
            Significant(lines[..i + 1]) == Significant(lines[..i]) + (if l == "" || StartsWith(l, "#") then [] else [l])
  {
    assert lines[..i + 1][..i] == lines[..i];
  }


  lemma GroupItemsSnoc(gs: seq<seq<string>>, g: seq<string>, ex: Extractors)
    ensures GroupItems(gs + [g], ex) == GroupItems(gs, ex) + [CreateItem(Join(g, " "), ex)]
  {
  }

  // ---------------------------------------------------------------------------
  // Perplexity and Copilot comments
  // ---------------------------------------------------------------------------

  /** The items of the 'critical' section are forced to Critical; nothing else changes. */
  function ForceCritical(items: seq<ReviewItem>): (r: seq<ReviewItem>)
    ensures |r| == |items|
    ensures forall k :: 0 <= k < |r| ==> r[k] == items[k].(priority := Critical)
  {
    seq(|items|, k requires 0 <= k < |items| => items[k].(priority := Critical))
  }

  /** The items found in the three recognised sections, in the order key findings, recommendations, critical. */
  function StructuredItems(sections: map<string, string>, ex: Extractors): seq<ReviewItem>
  {
    (if "key findings" in sections then BulletItems(Lines(sections["key findings"]), ex) else [])
    + (if "recommendations" in sections then NumberedItems(Lines(sections["recommendations"]), ex) else [])
    + (if "critical" in sections then ForceCritical(BulletItems(Lines(sections["critical"]), ex)) else [])
  }

  /** `parse_perplexity_comment` */
  function PerplexityItems(body: string, ex: Extractors): (items: seq<ReviewItem>)
    ensures |items| >= 1
  {
    var found := StructuredItems(Sections(body), ex);
    if found == [] then GenericItems(body, ex) else found
  }

  /** Only the three recognised sections matter: other sections contribute nothing. */
  lemma PerplexityUsesThreeSections(b1: string, b2: string, ex: Extractors)
    requires forall k :: k in ["key findings", "recommendations", "critical"] ==>
               (k in Sections(b1) <==> k in Sections(b2)) && (k in Sections(b1) ==> Sections(b1)[k] == Sections(b2)[k])
    requires StructuredItems(Sections(b1), ex) != []
    ensures PerplexityItems(b1, ex) == PerplexityItems(b2, ex)
  {
    var s1, s2 := Sections(b1), Sections(b2);
    assert "key findings" in ["key findings", "recommendations", "critical"];
    assert "recommendations" in ["key findings", "recommendations", "critical"];
    assert "critical" in ["key findings", "recommendations", "critical"];
    assert StructuredItems(s1, ex) == StructuredItems(s2, ex);
  }

  method ParsePerplexityComment(body: string, ex: Extractors) returns (items: seq<ReviewItem>)
    ensures items == PerplexityItems(body, ex)
  {
    var sections := SplitIntoSections(body);
    ghost var findingsPart := if "key findings" in sections then BulletItems(Lines(sections["key findings"]), ex) else [];
    ghost var recsPart := if "recommendations" in sections then NumberedItems(Lines(sections["recommendations"]), ex) else [];
    ghost var criticalPart := if "critical" in sections then ForceCritical(BulletItems(Lines(sections["critical"]), ex)) else [];
    assert StructuredItems(sections, ex) == findingsPart + recsPart + criticalPart;
    items := [];
    if "key findings" in sections {
      var findings := ParseBulletList(sections["key findings"], ex);
      items := items + findings;
    }
    assert items == findingsPart;
    if "recommendations" in sections {
      var recs := ParseNumberedList(sections["recommendations"], ex);
      items := items + recs;
    }
    assert items == findingsPart + recsPart;
    if "critical" in sections {
      var critical := ParseBulletList(sections["critical"], ex);
      ghost var parsed := critical;
      for k := 0 to |critical|
        invariant |critical| == |parsed|
        invariant forall m :: 0 <= m < k ==> critical[m] == parsed[m].(priority := Critical)
        invariant forall m :: k <= m < |critical| ==> critical[m] == parsed[m]
      {
        critical := critical[k := critical[k].(priority := Critical)];
      }
      assert critical == ForceCritical(parsed);
      items := items + critical;
    }
    assert items == StructuredItems(sections, ex);
    if items == [] {
      items := ParseGenericComment(body, ex);
    }
  }

  /** `comment.get('line') or comment.get('original_line')` */
  function InlineLine(c: RawComment): Option<int>
  {
    if TruthyInt(c.line) then c.line else c.originalLine
  }

  /** `parse_copilot_comment` */
  function CopilotItems(c: RawComment, ex: Extractors): (items: seq<ReviewItem>)
    ensures |items| >= 1
    ensures c.path.Some? ==> |items| == 1 && items[0].file == c.path.value && items[0].line == InlineLine(c)
                             && items[0].description == c.body
    ensures c.path.None? ==> items == GenericItems(c.body, ex)
  {
    if c.path.Some? then [CreateItem(c.body, ex).(file := c.path.value, line := InlineLine(c))]
    else GenericItems(c.body, ex)
  }

  method ParseCopilotComment(c: RawComment, ex: Extractors) returns (items: seq<ReviewItem>)
    ensures items == CopilotItems(c, ex)
  {
    if c.path.Some? {
      var item := CreateItem(c.body, ex);
      item := item.(file := c.path.value);
      item := item.(line := if TruthyInt(c.line) then c.line else c.originalLine);
      items := [item];
    } else {
      items := ParseGenericComment(c.body, ex);
    }
  }

  // ---------------------------------------------------------------------------
  // All comments
  // ---------------------------------------------------------------------------

  function WithReviewer(items: seq<ReviewItem>, reviewer: string): (r: seq<ReviewItem>)
    ensures |r| == |items|
  {
    seq(|items|, k requires 0 <= k < |items| => items[k].(reviewer := reviewer))
  }

  /** The reviewer a comment is attributed to: its login first, then the Perplexity marker. */
  function Attribution(c: RawComment): string
  {
    if c.login == ActionsBot then
      (if Contains(c.body, ParserPerplexityMarker) then "perplexity" else "copilot")
    else if EndsWith(c.login, "[bot]") then "bot"
    else "human"
  }

  /** The parser a comment is routed to: Perplexity, Copilot or generic, by login and marker. */
  function RoutedItems(c: RawComment, ex: Extractors): seq<ReviewItem>
  {
    if c.login == ActionsBot then
      (if Contains(c.body, ParserPerplexityMarker) then PerplexityItems(c.body, ex) else CopilotItems(c, ex))
    else GenericItems(c.body, ex)
  }

  /** The items of one comment, with the reviewer set on each. */
  function CommentItems(c: RawComment, ex: Extractors): seq<ReviewItem>
  {
    WithReviewer(RoutedItems(c, ex), Attribution(c))
  }

  /**
   * Every comment yields at least one item, all attributed to the comment's
   * reviewer, and otherwise exactly what the routed parser found.
   */
  lemma CommentItemsAttributed(c: RawComment, ex: Extractors)
    ensures |CommentItems(c, ex)| >= 1
    ensures forall k :: 0 <= k < |CommentItems(c, ex)| ==>
              CommentItems(c, ex)[k] == RoutedItems(c, ex)[k].(reviewer := Attribution(c))
  {
  }

  /** Perplexity formatting in a comment by someone other than the Actions bot is parsed generically. */
  lemma MarkerNeedsActionsBot(c: RawComment, ex: Extractors)
    requires c.login != ActionsBot
    ensures CommentItems(c, ex) == WithReviewer(GenericItems(c.body, ex), Attribution(c))
    ensures Attribution(c) in {"bot", "human"}
  {
  }

  /** `parse_all_comments`: the items of each comment, in comment order. */
  function AllItems(cs: seq<RawComment>, ex: Extractors): seq<ReviewItem>
  {
    if cs == [] then [] else AllItems(cs[..|cs| - 1], ex) + CommentItems(cs[|cs| - 1], ex)
  }

  /** Every comment contributes at least one item. */
  lemma {:induction false} AllItemsAtLeastOnePerComment(cs: seq<RawComment>, ex: Extractors)
    ensures |AllItems(cs, ex)| >= |cs|
  {
    if cs != [] {
      AllItemsAtLeastOnePerComment(cs[..|cs| - 1], ex);
      CommentItemsAttributed(cs[|cs| - 1], ex);
    }
  }

  /** Items keep comment order: parsing a concatenation concatenates the results. */
  lemma {:induction false} AllItemsAppend(a: seq<RawComment>, b: seq<RawComment>, ex: Extractors)
    ensures AllItems(a + b, ex) == AllItems(a, ex) + AllItems(b, ex)
    decreases |b|
  {
    if b == [] {
      assert a + b == a;
    } else {
      assert (a + b)[..|a + b| - 1] == a + b[..|b| - 1];
      AllItemsAppend(a, b[..|b| - 1], ex);
      AllItemsSnoc(a + b, ex);
      AllItemsSnoc(b, ex);
      AppendAssoc(AllItems(a, ex), AllItems(b[..|b| - 1], ex), CommentItems(b[|b| - 1], ex));
    }
  }

  lemma AllItemsSnoc(cs: seq<RawComment>, ex: Extractors)
    requires cs != []
    ensures AllItems(cs, ex) == AllItems(cs[..|cs| - 1], ex) + CommentItems(cs[|cs| - 1], ex)
  {
  }

  /** The reviewer of one comment in `parse_all_comments`, and the items of the parser it is routed to. */
  method RouteComment(c: RawComment, ex: Extractors) returns (reviewer: string, commentItems: seq<ReviewItem>)
    ensures reviewer == Attribution(c)
    ensures commentItems == RoutedItems(c, ex)
  {
    if c.login == ActionsBot {
      if Contains(c.body, ParserPerplexityMarker) {
        reviewer := "perplexity";
        commentItems := ParsePerplexityComment(c.body, ex);
      } else {
        reviewer := "copilot";
        commentItems := ParseCopilotComment(c, ex);
      }
    } else if EndsWith(c.login, "[bot]") {
      reviewer := "bot";
      commentItems := ParseGenericComment(c.body, ex);
    } else {
      reviewer := "human";
      commentItems := ParseGenericComment(c.body, ex);
    }
  }

  method ParseAllComments(cs: seq<RawComment>, ex: Extractors) returns (items: seq<ReviewItem>)
    ensures items == AllItems(cs, ex)
  {
    items := [];
    for i := 0 to |cs|
      invariant items == AllItems(cs[..i], ex)
    {
      assert cs[..i + 1][..i] == cs[..i];
      var reviewer, commentItems := RouteComment(cs[i], ex);
      ghost var parsed := commentItems;
      for k := 0 to |commentItems|
        invariant |commentItems| == |parsed|
        invariant forall m :: 0 <= m < k ==> commentItems[m] == parsed[m].(reviewer := reviewer)
        invariant forall m :: k <= m < |commentItems| ==> commentItems[m] == parsed[m]
      {
        commentItems := commentItems[k := commentItems[k].(reviewer := reviewer)];
      }
      assert commentItems == CommentItems(cs[i], ex);
      items := items + commentItems;
    }
    assert cs[..|cs|] == cs;
  }

  // ---------------------------------------------------------------------------
  // Bucketing and filters
  // ---------------------------------------------------------------------------

  /** The items of priority `p`, in input order. */
  function WithPriority(items: seq<ReviewItem>, p: Priority): (r: seq<ReviewItem>)
    ensures forall x :: x in r <==> x in items && x.priority == p
    ensures |r| <= |items|
  {
    if items == [] then []
    else
      var last := items[|items| - 1];
      WithPriority(items[..|items| - 1], p) + (if last.priority == p then [last] else [])
  }

  lemma {:induction false} WithPriorityAppend(a: seq<ReviewItem>, b: seq<ReviewItem>, p: Priority)
    ensures WithPriority(a + b, p) == WithPriority(a, p) + WithPriority(b, p)
    decreases |b|
  {
    if b == [] {
      assert a + b == a;
    } else {
      assert (a + b)[..|a + b| - 1] == a + b[..|b| - 1];
      WithPriorityAppend(a, b[..|b| - 1], p);
      var last := b[|b| - 1];
      assert (a + b)[|a + b| - 1] == last;
      AppendAssoc(WithPriority(a, p), WithPriority(b[..|b| - 1], p), if last.priority == p then [last] else []);
    }
  }

  /** The six buckets together hold exactly the input items. */
  lemma {:induction false} BucketsPartition(items: seq<ReviewItem>, x: ReviewItem)
    ensures multiset(WithPriority(items, x.priority))[x] == multiset(items)[x]
    ensures forall p :: p != x.priority ==> x !in WithPriority(items, p)
  {
    if items != [] {
      var init := items[..|items| - 1];
      BucketsPartition(init, x);
      assert items == init + [items[|items| - 1]];
    }
  }

  /** The six bucket keys. */
  const BucketKeys: set<string> := {"critical", "high", "medium", "low", "deferred", "info"}

  /** `categorize_items` */
  method CategorizeItems(items: seq<ReviewItem>) returns (categorized: map<string, seq<ReviewItem>>)
    ensures categorized == Buckets(items)
  {
    categorized := map["critical" := [], "high" := [], "medium" := [], "low" := [], "deferred" := [], "info" := []];
    for i := 0 to |items|
      invariant categorized == Buckets(items[..i])
    {
      BucketsStep(items[..i], items[i]);
      assert items[..i + 1] == items[..i] + [items[i]];
      var item := items[i];
      var key := item.priority.Key();
      if key in categorized {
        categorized := categorized[key := categorized[key] + [item]];
      }
    }
    assert items[..|items|] == items;
  }

  /** The buckets `categorize_items` fills: one per priority, keyed by the lower-cased priority name. */
  function Buckets(items: seq<ReviewItem>): map<string, seq<ReviewItem>>
  {
    map k | k in BucketKeys :: WithKey(items, k)
  }

  /** The items whose priority key is `k`, in order. */
  function WithKey(items: seq<ReviewItem>, k: string): seq<ReviewItem>
  {
    if items == [] then []
    else
      var last := items[|items| - 1];
      WithKey(items[..|items| - 1], k) + (if last.priority.Key() == k then [last] else [])
  }

  lemma BucketsStep(init: seq<ReviewItem>, x: ReviewItem)
    ensures var b := Buckets(init);
            var k := x.priority.Key();
            k in b && Buckets(init + [x]) == b[k := b[k] + [x]]
  {
    var items := init + [x];
    assert items[..|init|] == init;
    PriorityKeyIn(x.priority);
    var b, k := Buckets(init), x.priority.Key();
    forall key | key in BucketKeys ensures Buckets(items)[key] == b[k := b[k] + [x]][key] {
      assert WithKey(items, key) == WithKey(init, key) + (if k == key then [x] else []);
    }
    assert Buckets(items).Keys == b[k := b[k] + [x]].Keys;
  }

  lemma PriorityKeyIn(p: Priority)
    ensures p.Key() in BucketKeys
  {
  }

  lemma KeyInjective(p: Priority, q: Priority)
    requires p.Key() == q.Key()
    ensures p == q
  {
  }

  /** Filtering by key and by priority agree, because distinct priorities have distinct keys. */
  lemma {:induction false} WithKeyIsWithPriority(items: seq<ReviewItem>, p: Priority)
    ensures WithKey(items, p.Key()) == WithPriority(items, p)
  {
    if items != [] {
      var last := items[|items| - 1];
      WithKeyIsWithPriority(items[..|items| - 1], p);
      if last.priority.Key() == p.Key() {
        KeyInjective(last.priority, p);
      }
    }
  }

  /** Every item lands in the bucket of its own priority, and the buckets hold exactly the items of that priority. */
  lemma BucketsByPriority(items: seq<ReviewItem>)
    ensures Buckets(items).Keys == BucketKeys
    ensures forall p: Priority :: p.Key() in Buckets(items) && Buckets(items)[p.Key()] == WithPriority(items, p)
  {
    forall p: Priority ensures p.Key() in Buckets(items) && Buckets(items)[p.Key()] == WithPriority(items, p) {
      PriorityKeyIn(p);
      WithKeyIsWithPriority(items, p);
    }
  }

  /** `get_blocking_items`: the Critical and High items, in input order. */
  function BlockingItems(items: seq<ReviewItem>): (r: seq<ReviewItem>)
    ensures forall x :: x in r <==> x in items && x.IsBlocking()
    ensures |r| <= |items|
  {
    if items == [] then []
    else
      var last := items[|items| - 1];
      BlockingItems(items[..|items| - 1]) + (if last.IsBlocking() then [last] else [])
  }

  lemma {:induction false} BlockingItemsAppend(a: seq<ReviewItem>, b: seq<ReviewItem>)
    ensures BlockingItems(a + b) == BlockingItems(a) + BlockingItems(b)
    decreases |b|
  {
    if b == [] {
      assert a + b == a;
    } else {
      assert (a + b)[..|a + b| - 1] == a + b[..|b| - 1];
      BlockingItemsAppend(a, b[..|b| - 1]);
      var last := b[|b| - 1];
      assert (a + b)[|a + b| - 1] == last;
      AppendAssoc(BlockingItems(a), BlockingItems(b[..|b| - 1]), if last.IsBlocking() then [last] else []);
    }
  }

  /** The blocking items are the Critical bucket and the High bucket, merged in input order. */
  lemma {:induction false} BlockingIsCriticalAndHigh(items: seq<ReviewItem>)
    ensures |BlockingItems(items)| == |WithPriority(items, Critical)| + |WithPriority(items, High)|
    ensures BlockingItems(items) == [] <==> WithPriority(items, Critical) == [] && WithPriority(items, High) == []
  {
    if items != [] {
      BlockingIsCriticalAndHigh(items[..|items| - 1]);
    }
  }

  /** `get_deferred_items`: the Deferred items, in input order. */
  function DeferredItems(items: seq<ReviewItem>): (r: seq<ReviewItem>)
    ensures forall x :: x in r <==> x in items && x.priority == Deferred
  {
    WithPriority(items, Deferred)
  }
}
