/** The smart alert filter: an ordered list of suppression rules over an
    alert's text, and the learned lists the user's dismissals grow. */
module SmartAlerts {
  import opened Text

  /** The fields of an alert's `details` the filter reads, each `None` when the
      key is absent, and `rendered`, the text of `str(details)`. */
  datatype Details = Details(
    process: Option<string>,
    toolName: Option<string>,
    path: Option<string>,
    file: Option<string>,
    activityType: Option<string>,
    rendered: string)

  /** An alert; a missing title, category or description reads as "". */
  datatype Alert = Alert(title: string, category: string, description: string, details: Details)

  /** The substrings that mark an alert as ordinary development or system noise. */
  const BenignPatterns := [
    "package-lock.json", "package.json", "yarn.lock", "Cargo.lock", "Gemfile.lock",
    "poetry.lock", "pnpm-lock.yaml", ".git/", "node_modules/", "__pycache__/", ".pyc",
    ".npm/", ".cache/",
    ".DS_Store", ".Trash", "Library/Caches", "Library/Preferences", "/var/folders/", "/tmp/",
    ".vscode/", ".idea/", "*.swp", ".eslintcache"]

  /** The learned lists. */
  datatype Learned = Learned(dismissed: seq<string>, processes: seq<string>, paths: seq<string>)

  const NothingLearned := Learned([], [], [])

  /** The rule that suppressed an alert, with what it matched. */
  datatype Suppression =
    | Benign(pattern: string)
    | Dismissed(pattern: string)
    | SafeProcess(process: string)
    | SafePath(safePath: string)
    | RateBased(activityType: string)

  /** `details.get('process', details.get('tool_name', ''))`. */
  function ProcessOf(d: Details): string {
    if d.process.Some? then d.process.value else d.toolName.GetOr("")
  }

  /** `details.get('path', details.get('file', ''))`. */
  function PathOf(d: Details): string {
    if d.path.Some? then d.path.value else d.file.GetOr("")
  }

  /** A benign pattern is looked for in the title, the description and the details. */
  predicate InAlertText(a: Alert, pattern: string) {
    Contains(a.title, pattern) || Contains(a.description, pattern) || Contains(a.details.rendered, pattern)
  }

  /** A dismissed pattern is looked for in the title and the description only. */
  predicate InTitleOrDescription(a: Alert, pattern: string) {
    Contains(a.title, pattern) || Contains(a.description, pattern)
  }

  /** `should_suppress`: the first rule that applies, in order. */
  function Suppress(l: Learned, a: Alert): Option<Suppression> {
    SuppressWith(BenignPatterns, l, a)
  }

  /** The rules with the benign table as a parameter. */
  function SuppressWith(benignPatterns: seq<string>, l: Learned, a: Alert): Option<Suppression> {
    var benign := FirstMatch(benignPatterns, p => InAlertText(a, p));
    if benign.Some? then Some(Benign(benign.value))
    else
      var dismissed := FirstMatch(l.dismissed, p => InTitleOrDescription(a, p));
      if dismissed.Some? then Some(Dismissed(dismissed.value))
      else if ProcessOf(a.details) in l.processes then Some(SafeProcess(ProcessOf(a.details)))
      else
        var safePath := FirstMatch(l.paths, p => Contains(PathOf(a.details), p));
        if safePath.Some? then Some(SafePath(safePath.value))
        else if a.category == "behavioral_anomaly" then Some(RateBased(a.details.activityType.GetOr("")))
        else None
  }

  /** The reason text of a suppression. */
  function ReasonText(s: Suppression): string {
    match s
    case Benign(p) => "Matches benign pattern: " + p
    case Dismissed(p) => "Previously dismissed: " + p
    case SafeProcess(p) => "Known safe process: " + p
    case SafePath(p) => "Known safe path: " + p
    case RateBased(t) => "Suppressed rate-based alert: " + t
  }

  /** The pair `should_suppress` returns. */
  function Decision(l: Learned, a: Alert): (bool, string) {
    Verdict(Suppress(l, a))
  }

  function Verdict(r: Option<Suppression>): (bool, string) {
    match r
    case Some(s) => (true, ReasonText(s))
    case None => (false, "")
  }

  /** An alert is kept exactly when no rule applies, and then with an empty reason. */
  lemma VerdictKept(r: Option<Suppression>)
    ensures r.None? <==> Verdict(r) == (false, "")
    ensures r.Some? <==> Verdict(r).0
  {
    if r.Some? {
      assert ReasonText(r.value) != "";
    }
  }

  /** Each rule fires exactly when it applies and no earlier rule does. */
  lemma SuppressOrder(benignPatterns: seq<string>, l: Learned, a: Alert)
    ensures var r := SuppressWith(benignPatterns, l, a);
            var benign := exists k :: 0 <= k < |benignPatterns| && InAlertText(a, benignPatterns[k]);
            var dismissed := exists k :: 0 <= k < |l.dismissed| && InTitleOrDescription(a, l.dismissed[k]);
            var process := ProcessOf(a.details) in l.processes;
            var path := exists k :: 0 <= k < |l.paths| && Contains(PathOf(a.details), l.paths[k]);
            var rate := a.category == "behavioral_anomaly";
            (r.Some? && r.value.Benign? <==> benign) &&
            (r.Some? && r.value.Dismissed? <==> !benign && dismissed) &&
            (r.Some? && r.value.SafeProcess? <==> !benign && !dismissed && process) &&
            (r.Some? && r.value.SafePath? <==> !benign && !dismissed && !process && path) &&
            (r.Some? && r.value.RateBased? <==> !benign && !dismissed && !process && !path && rate) &&
            (r.None? <==> !benign && !dismissed && !process && !path && !rate)
  {
  }

  /** What a rule reports is what it matched: a benign pattern present in the
      alert, a dismissed pattern in its title or description, a safe path
      inside its path, the alert's own process. */
  lemma SuppressMatches(benignPatterns: seq<string>, l: Learned, a: Alert)
    ensures var r := SuppressWith(benignPatterns, l, a);
            (r.Some? && r.value.Benign? ==> r.value.pattern in benignPatterns && InAlertText(a, r.value.pattern)) &&
            (r.Some? && r.value.Dismissed? ==> r.value.pattern in l.dismissed && InTitleOrDescription(a, r.value.pattern)) &&
            (r.Some? && r.value.SafePath? ==> r.value.safePath in l.paths && Contains(PathOf(a.details), r.value.safePath)) &&
            (r.Some? && r.value.SafeProcess? ==> r.value.process == ProcessOf(a.details))
  {
  }

  /** Every behavioural-anomaly alert is suppressed, whatever is learned. */
  lemma BehavioralAlwaysSuppressed(l: Learned, a: Alert)
    requires a.category == "behavioral_anomaly"
    ensures Decision(l, a).0
  {
    SuppressOrder(BenignPatterns, l, a);
    VerdictKept(Suppress(l, a));
  }

  /** Mentioning a benign pattern anywhere in the alert suppresses it as benign;
      a pattern such as "*.swp" is a literal substring, with no wildcard. */
  lemma BenignAnywhere(l: Learned, a: Alert, k: nat)
    requires k < |BenignPatterns| && InAlertText(a, BenignPatterns[k])
    ensures Suppress(l, a).Some? && Suppress(l, a).value.Benign?
  {
    SuppressOrder(BenignPatterns, l, a);
  }

  /** An alert about `node_modules/`, `.git/` or `package-lock.json` is benign. */
  lemma DevelopmentNoiseSuppressed(l: Learned, a: Alert, pattern: string)
    requires pattern == "node_modules/" || pattern == ".git/" || pattern == "package-lock.json"
    requires Contains(a.title, pattern) || Contains(a.description, pattern) || Contains(a.details.rendered, pattern)
    ensures Suppress(l, a).Some? && Suppress(l, a).value.Benign?
  {
    var k: nat := if pattern == "node_modules/" then 8 else if pattern == ".git/" then 7 else 0;
    assert BenignPatterns[k] == pattern;
    BenignAnywhere(l, a, k);
  }

  /** The process is `process` when present, else `tool_name`, else "". */
  lemma ProcessFallback(d: Details)
    ensures d.process.Some? ==> ProcessOf(d) == d.process.value
    ensures d.process.None? && d.toolName.Some? ==> ProcessOf(d) == d.toolName.value
    ensures d.process.None? && d.toolName.None? ==> ProcessOf(d) == ""
  {
  }

  // ------------------------------------------------------------ learning

  /** The index of the first ':' in `s`, if any. */
  function FirstColon(s: string): Option<nat> {
    FirstIndex(s, c => c == ':')
  }

  /** The pattern `learn_from_dismissal` would learn from a title; `None` for
      "Activity Pattern" titles, which are not learned from. */
  function PatternOf(title: string): Option<string> {
    if Contains(title, "Lockfile") then Some("Lockfile")
    else if Contains(title, "Activity Pattern") then None
    else
      match FirstColon(title)
      case Some(k) => Some(Strip(title[..k]))
      case None => Some(title)
  }

  /** The learned pattern, when there is one, occurs in the title. */
  lemma PatternInTitle(title: string)
    requires PatternOf(title).Some?
    ensures Contains(title, PatternOf(title).value)
  {
    if !Contains(title, "Lockfile") {
      match FirstColon(title)
      case Some(k) =>
        StripContained(title[..k]);
        ContainsAt(title, title[..k], 0);
        ContainsTransitive(title, title[..k], Strip(title[..k]));
      case None =>
        ContainsAt(title, title, 0);
    }
  }

  /** A title `head: tail` learns `head`, when `head` has no ':' and no
      whitespace at either end (so "Custom Alert: Test Pattern" learns
      "Custom Alert"). */
  lemma ColonTitlePattern(head: string, tail: string)
    requires ':' !in head
    requires head != [] ==> !IsSpace(head[0]) && !IsSpace(head[|head| - 1])
    requires !Contains(head + ":" + tail, "Lockfile") && !Contains(head + ":" + tail, "Activity Pattern")
    ensures PatternOf(head + ":" + tail) == Some(head)
  {
    var t := head + ":" + tail;
    assert t[|head|] == ':' && forall j :: 0 <= j < |head| ==> t[j] == head[j];
    assert FirstColon(t) == Some(|head|);
    assert t[..|head|] == head;
    StripUnchanged(head);
  }

  /** The learned lists after a dismissal of an alert titled `title`. */
  function AfterDismissal(l: Learned, title: string): Learned {
    match PatternOf(title)
    case Some(p) => if p != "" then l.(dismissed := AppendNew(l.dismissed, p)) else l
    case None => l
  }

  /** A dismissal that learns a pattern makes the same alert suppressed from
      then on. */
  lemma DismissedThenSuppressed(l: Learned, a: Alert)
    requires PatternOf(a.title).Some? && PatternOf(a.title).value != ""
    ensures Decision(AfterDismissal(l, a.title), a).0
  {
    var p := PatternOf(a.title).value;
    var l2 := AfterDismissal(l, a.title);
    PatternInTitle(a.title);
    assert p in l2.dismissed;
    var k :| 0 <= k < |l2.dismissed| && l2.dismissed[k] == p;
    assert InTitleOrDescription(a, l2.dismissed[k]);
    SuppressOrder(BenignPatterns, l2, a);
    VerdictKept(Suppress(l2, a));
  }

  /** Learned lists stay free of duplicates, and the dismissed patterns never
      hold the empty string. */
  ghost predicate LearnedWellFormed(l: Learned) {
    NoDuplicates(l.dismissed) && NoDuplicates(l.processes) && NoDuplicates(l.paths) && "" !in l.dismissed
  }

  /** The filter; loading and saving the learned lists are not modelled. */
  class SmartAlertFilter {
    var dismissedPatterns: seq<string>
    var safeProcesses: seq<string>
    var safePaths: seq<string>
    var suppressedCategories: seq<string>

    function State(): Learned
      reads this
    {
      Learned(dismissedPatterns, safeProcesses, safePaths)
    }

    ghost predicate Valid()
      reads this
    {
      LearnedWellFormed(State())
    }

    /** A filter with nothing learned yet. */
    constructor()
      ensures Valid() && State() == NothingLearned && suppressedCategories == []
    {
      dismissedPatterns := [];
      safeProcesses := [];
      safePaths := [];
      suppressedCategories := [];
    }

    /** `should_suppress` against what has been learned so far. */
    function ShouldSuppress(a: Alert): (bool, string)
      reads this
    {
      Decision(State(), a)
    }

    /** `learn_from_dismissal`. */
    method LearnFromDismissal(a: Alert)
      requires Valid()
      modifies this
      ensures Valid()
      ensures State() == AfterDismissal(old(State()), a.title)
      ensures suppressedCategories == old(suppressedCategories)
    {
      var pattern: string;
      if Contains(a.title, "Lockfile") {
        pattern := "Lockfile";
      } else if Contains(a.title, "Activity Pattern") {
        return;
      } else {
        var colon := FindFirst(a.title, c => c == ':');
        pattern := if colon.Some? then Strip(a.title[..colon.value]) else a.title;
      }
      if pattern != "" && pattern !in dismissedPatterns {
        dismissedPatterns := dismissedPatterns + [pattern];
      }
    }

    /** `mark_process_safe`. */
    method MarkProcessSafe(process: string)
      requires Valid()
      modifies this
      ensures Valid()
      ensures State() == old(State()).(processes := AppendNew(old(safeProcesses), process))
      ensures suppressedCategories == old(suppressedCategories)
    {
      if process !in safeProcesses {
        safeProcesses := safeProcesses + [process];
      }
    }

    /** `mark_path_safe`. */
    method MarkPathSafe(path: string)
      requires Valid()
      modifies this
      ensures Valid()
      ensures State() == old(State()).(paths := AppendNew(old(safePaths), path))
      ensures suppressedCategories == old(suppressedCategories)
    {
      if path !in safePaths {
        safePaths := safePaths + [path];
      }
    }

    /** `clear_learned`: every learned list becomes empty. */
    method ClearLearned()
      modifies this
      ensures Valid() && State() == NothingLearned && suppressedCategories == []
    {
      dismissedPatterns := [];
      safeProcesses := [];
      safePaths := [];
      suppressedCategories := [];
    }
  }

  /** A safe process suppresses any alert naming it, unless an earlier rule does. */
  lemma SafeProcessSuppressed(l: Learned, a: Alert, process: string)
    requires ProcessOf(a.details) == process
    ensures Decision(l.(processes := AppendNew(l.processes, process)), a).0
  {
    var l2 := l.(processes := AppendNew(l.processes, process));
    SuppressOrder(BenignPatterns, l2, a);
    VerdictKept(Suppress(l2, a));
  }

  /** A safe path suppresses any alert whose path contains it. */
  lemma SafePathSuppressed(l: Learned, a: Alert, path: string)
    requires Contains(PathOf(a.details), path)
    ensures Decision(l.(paths := AppendNew(l.paths, path)), a).0
  {
    var l2 := l.(paths := AppendNew(l.paths, path));
    var k :| 0 <= k < |l2.paths| && l2.paths[k] == path;
    assert Contains(PathOf(a.details), l2.paths[k]);
    SuppressOrder(BenignPatterns, l2, a);
    VerdictKept(Suppress(l2, a));
  }

  /** Marking the same process or path twice is marking it once. */
  method MarkTwice(f: SmartAlertFilter, process: string, path: string)
    requires f.Valid()
    modifies f
    ensures f.State() == old(f.State()).(processes := AppendNew(old(f.safeProcesses), process),
                                         paths := AppendNew(old(f.safePaths), path))
  {
    f.MarkProcessSafe(process);
    f.MarkPathSafe(path);
    ghost var once := f.State();
    f.MarkProcessSafe(process);
    f.MarkPathSafe(path);
    AppendNewIdempotent(old(f.safeProcesses), process);
    AppendNewIdempotent(old(f.safePaths), path);
    assert f.State() == once;
  }
}
