/** The security detector's decision logic: the risk score of a traced
    command, the de-duplicated trace lists, the capped alert log with its
    reversed-index dismissal, and the new-connection filter. */
module Detector {
  import opened Text

  /** An alert as the log stores it; its `details` are not modelled. */
  datatype Alert = Alert(severity: string, category: string, title: string, description: string, timestamp: string)

  /** An alert moved to the dismissed log, stamped with the time. */
  datatype DismissedAlert = DismissedAlert(alert: Alert, dismissedAt: string)

  const MaxAlerts := 500
  const MaxKnownConnections := 200

  // ------------------------------------------------------------ trace parsing

  /** What a trace of a command yields: the three activity lists, the risk
      factors and the raw output. */
  datatype Trace = Trace(
    files: seq<string>,
    network: seq<string>,
    processes: seq<string>,
    riskFactors: seq<string>,
    output: string)

  /** The strings the extraction patterns find in the output, pattern by
      pattern, for each of the three lists. */
  datatype Matches = Matches(files: seq<string>, network: seq<string>, processes: seq<string>)

  /** The list after appending each non-empty match not yet present. */
  function AddedAll(xs: seq<string>, matches: seq<string>): (r: seq<string>)
    ensures xs <= r
    ensures NoDuplicates(xs) ==> NoDuplicates(r)
    ensures forall y :: y in r <==> y in xs || (y in matches && y != "")
  {
    if matches == [] then xs
    else
      var init := matches[..|matches| - 1];
      var m := matches[|matches| - 1];
      var prev := AddedAll(xs, init);
      assert forall y :: y in matches <==> y in init || y == m;
      if m != "" then AppendNew(prev, m) else prev
  }

  /** The loop that adds each match of one list. */
  method AddMatches(xs: seq<string>, matches: seq<string>) returns (r: seq<string>)
    ensures r == AddedAll(xs, matches)
  {
    r := xs;
    var k := 0;
    while k < |matches|
      invariant 0 <= k <= |matches|
      invariant r == AddedAll(xs, matches[..k])
    {
      assert matches[..k + 1][..k] == matches[..k];
      var m := matches[k];
      if m != "" && m !in r {
        r := r + [m];
      }
      k := k + 1;
    }
    assert matches[..k] == matches;
  }

  /** `_parse_trace`: the three lists after adding their matches. */
  method ParseTrace(t: Trace, m: Matches) returns (r: Trace)
    ensures r == t.(files := AddedAll(t.files, m.files),
                    network := AddedAll(t.network, m.network),
                    processes := AddedAll(t.processes, m.processes))
  {
    var files := AddMatches(t.files, m.files);
    var network := AddMatches(t.network, m.network);
    var processes := AddMatches(t.processes, m.processes);
    r := t.(files := files, network := network, processes := processes);
  }

  /** Parsing keeps duplicate-free lists duplicate-free, keeps what they held
      in front, and adds exactly the non-empty matches. */
  lemma ParseTraceSpec(t: Trace, m: Matches)
    requires NoDuplicates(t.files) && NoDuplicates(t.network) && NoDuplicates(t.processes)
    ensures var files := AddedAll(t.files, m.files);
            NoDuplicates(files) && t.files <= files &&
            (forall f :: f in files <==> f in t.files || (f in m.files && f != ""))
    ensures var network := AddedAll(t.network, m.network);
            NoDuplicates(network) && t.network <= network
    ensures var processes := AddedAll(t.processes, m.processes);
            NoDuplicates(processes) && t.processes <= processes
  {
  }

  // ------------------------------------------------------------ risk

  const SensitivePaths := ["/etc/", "/root/", "/.ssh/", "/var/log/", "/private/"]

  predicate IsSensitiveFile(f: string) {
    exists k :: 0 <= k < |SensitivePaths| && Contains(f, SensitivePaths[k])
  }

  /** How many of the files are sensitive, each counted once. */
  function SensitiveCount(files: seq<string>): (n: nat)
    ensures n <= |files|
  {
    if files == [] then 0
    else SensitiveCount(files[..|files| - 1]) + (if IsSensitiveFile(files[|files| - 1]) then 1 else 0)
  }

  /** The factor recorded for each sensitive file, in order. */
  function SensitiveFactors(files: seq<string>): (r: seq<string>)
    ensures |r| == SensitiveCount(files)
  {
    if files == [] then []
    else
      var f := files[|files| - 1];
      SensitiveFactors(files[..|files| - 1]) + (if IsSensitiveFile(f) then ["Sensitive file access: " + f] else [])
  }

  /** Which of the three markers the trace output mentions. */
  datatype Markers = Markers(exfil: bool, persistence: bool, privilege: bool)

  function MarkersOf(output: string): Markers {
    Markers(Contains(output, "EXFIL"), Contains(output, "PERSISTENCE"), Contains(output, "PRIVILEGE"))
  }

  /** The score of a trace. */
  function Score(t: Trace): nat {
    ScoreWith(t, MarkersOf(t.output))
  }

  function ScoreWith(t: Trace, m: Markers): nat {
    (if t.network != [] then 2 else 0)
    + 3 * SensitiveCount(t.files)
    + (if t.processes != [] then 1 else 0)
    + (if m.exfil then 4 else 0)
    + (if m.persistence then 3 else 0)
    + (if m.privilege then 2 else 0)
  }

  /** The factors `_assess_risk` appends, in order. */
  function NewFactors(t: Trace): seq<string> {
    NewFactorsWith(t, MarkersOf(t.output))
  }

  function NewFactorsWith(t: Trace, m: Markers): seq<string> {
    (if t.network != [] then ["Network activity detected"] else [])
    + SensitiveFactors(t.files)
    + (if m.exfil then ["Possible data exfiltration"] else [])
    + (if m.persistence then ["Possible persistence mechanism"] else [])
    + (if m.privilege then ["Privilege modification"] else [])
  }

  datatype Level = Low | Medium | High | Critical

  function LevelName(l: Level): string {
    match l
    case Low => "low"
    case Medium => "medium"
    case High => "high"
    case Critical => "critical"
  }

  function LevelOf(score: nat): Level {
    if score >= 5 then Critical else if score >= 3 then High else if score >= 1 then Medium else Low
  }

  function Rank(l: Level): nat {
    match l
    case Low => 0
    case Medium => 1
    case High => 2
    case Critical => 3
  }

  /** The thresholds: critical from 5, high from 3, medium from 1, low at 0;
      and a higher score never gives a lower level. */
  lemma LevelThresholds(a: nat, b: nat)
    ensures LevelOf(a) == Critical <==> a >= 5
    ensures LevelOf(a) == High <==> 3 <= a < 5
    ensures LevelOf(a) == Medium <==> 1 <= a < 3
    ensures LevelOf(a) == Low <==> a == 0
    ensures a <= b ==> Rank(LevelOf(a)) <= Rank(LevelOf(b))
  {
  }

  /** The score is the sum of its parts, and only exfiltration, persistence
      or privilege markers and sensitive files can reach "high" without network
      activity: a trace with nothing in it scores 0. */
  lemma ScoreParts(t: Trace)
    ensures Score(t) >= 3 * SensitiveCount(t.files)
    ensures var m := MarkersOf(t.output);
            t.network == [] && t.processes == [] && SensitiveCount(t.files) == 0 &&
            !m.exfil && !m.persistence && !m.privilege
            ==> LevelOf(Score(t)) == Low
    ensures MarkersOf(t.output).exfil && t.network != [] ==> LevelOf(Score(t)) == Critical
    ensures SensitiveCount(t.files) >= 2 ==> LevelOf(Score(t)) == Critical
  {
  }

  /** The loop over one file's sensitive substrings, with its `break`. */
  method IsSensitive(f: string) returns (r: bool)
    ensures r == IsSensitiveFile(f)
  {
    var k := 0;
    while k < |SensitivePaths|
      invariant 0 <= k <= |SensitivePaths|
      invariant forall j :: 0 <= j < k ==> !Contains(f, SensitivePaths[j])
    {
      if Contains(f, SensitivePaths[k]) {
        return true;
      }
      k := k + 1;
    }
    return false;
  }

  /** The loop over the accessed files: each sensitive file adds 3 to the
      score and one factor. */
  method ScanFiles(files: seq<string>) returns (count: nat, factors: seq<string>)
    ensures count == SensitiveCount(files) && factors == SensitiveFactors(files)
  {
    count, factors := 0, [];
    var k := 0;
    while k < |files|
      invariant 0 <= k <= |files|
      invariant count == SensitiveCount(files[..k]) && factors == SensitiveFactors(files[..k])
    {
      assert files[..k + 1][..k] == files[..k];
      var sensitive := IsSensitive(files[k]);
      if sensitive {
        count := count + 1;
        factors := factors + ["Sensitive file access: " + files[k]];
      }
      k := k + 1;
    }
    assert files[..k] == files;
  }

  /** `_assess_risk`: the level, and the trace with its new factors appended. */
  method AssessRisk(t: Trace) returns (level: Level, r: Trace)
    ensures level == LevelOf(Score(t))
    ensures r == t.(riskFactors := t.riskFactors + NewFactors(t))
  {
    var score := 0;
    var factors := t.riskFactors;
    if t.network != [] {
      score := score + 2;
    }
    factors := AddFactor(factors, t.network != [], "Network activity detected");
    var count, fileFactors := ScanFiles(t.files);
    score := score + 3 * count;
    factors := factors + fileFactors;
    if t.processes != [] {
      score := score + 1;
    }
    var markers := MarkersOf(t.output);
    if markers.exfil {
      score := score + 4;
    }
    if markers.persistence {
      score := score + 3;
    }
    if markers.privilege {
      score := score + 2;
    }
    factors := AddFactor(factors, markers.exfil, "Possible data exfiltration");
    factors := AddFactor(factors, markers.persistence, "Possible persistence mechanism");
    factors := AddFactor(factors, markers.privilege, "Privilege modification");
    FactorsAssembled(t, markers);
    level := if score >= 5 then Critical else if score >= 3 then High else if score >= 1 then Medium else Low;
    r := t.(riskFactors := factors);
  }

  /** One `if …: risk_factors.append(…)` step. */
  function AddFactor(factors: seq<string>, cond: bool, factor: string): (r: seq<string>)
    ensures r == factors + (if cond then [factor] else [])
  {
    if cond then factors + [factor] else factors
  }

  /** Appending the pieces one after another gives the trace's factors followed
      by all the new ones. */
  lemma FactorsAssembled(t: Trace, m: Markers)
    ensures AddFactor(AddFactor(AddFactor(AddFactor(t.riskFactors, t.network != [], "Network activity detected")
              + SensitiveFactors(t.files), m.exfil, "Possible data exfiltration"),
              m.persistence, "Possible persistence mechanism"), m.privilege, "Privilege modification")
            == t.riskFactors + NewFactorsWith(t, m)
  {
  }

  // ------------------------------------------------------------ the alert log

  /** `alerts[-limit:]` exactly as written: a limit of 0 (or below) slices from
      the front instead of taking nothing. */
  function RecentAsWritten(alerts: seq<Alert>, limit: int): seq<Alert> {
    PySuffix(alerts, limit)
  }

  /** As written, asking for the last 0 alerts returns all of them. */
  lemma RecentZeroReturnsAll(alerts: seq<Alert>)
    ensures RecentAsWritten(alerts, 0) == alerts
    ensures alerts != [] ==> |RecentAsWritten(alerts, 0)| != 0
  {
  }

  /** The last `min(limit, len)` alerts, in order. */
  function Recent(alerts: seq<Alert>, limit: int): (r: seq<Alert>)
    ensures |r| == if limit <= 0 then 0 else if limit < |alerts| then limit else |alerts|
    ensures forall k :: 0 <= k < |r| ==> r[k] == alerts[|alerts| - |r| + k]
    ensures limit > 0 ==> r == RecentAsWritten(alerts, limit)
  {
    if limit <= 0 then [] else Last(alerts, limit)
  }

  /** `xs` in reverse, as the dashboard shows the log. */
  function Reversed<T>(xs: seq<T>): (r: seq<T>)
    ensures |r| == |xs| && forall k :: 0 <= k < |xs| ==> r[k] == xs[|xs| - 1 - k]
  {
    if xs == [] then [] else [xs[|xs| - 1]] + Reversed(xs[..|xs| - 1])
  }

  /** The position `dismiss_alert` removes for a UI index. */
  function Position(alerts: seq<Alert>, index: int): int {
    |alerts| - 1 - index
  }

  /** A UI index into the newest-first list of the last `limit` alerts names
      the same alert as the position `dismiss_alert` computes on the whole log. */
  lemma ShownIndexAddresses(alerts: seq<Alert>, limit: int, index: nat)
    requires index < |Recent(alerts, limit)|
    ensures 0 <= Position(alerts, index) < |alerts|
    ensures Reversed(Recent(alerts, limit))[index] == alerts[Position(alerts, index)]
  {
  }

  /** The detector's persistent state: the known connections and the two
      logs. Reading and writing the files is not modelled. */
  class SecurityDetector {
    var knownConnections: seq<string>
    var alerts: seq<Alert>
    var dismissed: seq<DismissedAlert>

    ghost predicate Valid()
      reads this
    {
      |alerts| <= MaxAlerts && |knownConnections| <= MaxKnownConnections
    }

    /** A detector with the default state and empty logs. */
    constructor()
      ensures Valid() && knownConnections == [] && alerts == [] && dismissed == []
    {
      knownConnections := [];
      alerts := [];
      dismissed := [];
    }

    /** `_save_alert`: append, then keep the last 500. */
    method SaveAlert(a: Alert)
      requires Valid()
      modifies this
      ensures Valid()
      ensures alerts == Last(old(alerts) + [a], MaxAlerts)
      ensures |alerts| <= MaxAlerts && alerts[|alerts| - 1] == a
      ensures knownConnections == old(knownConnections) && dismissed == old(dismissed)
    {
      var all := alerts + [a];
      if |all| > MaxAlerts {
        all := all[|all| - MaxAlerts..];
      }
      alerts := all;
    }

    /** `get_recent_alerts`, with the limit read as a count. */
    method GetRecentAlerts(limit: int) returns (r: seq<Alert>)
      ensures r == Recent(alerts, limit)
    {
      if limit <= 0 {
        return [];
      }
      r := if limit < |alerts| then alerts[|alerts| - limit..] else alerts;
    }

    /** `dismiss_alert`: the UI index counts from the newest alert; an index out
      of range changes nothing. */
    method DismissAlert(index: int, now: string)
      requires Valid()
      modifies this
      ensures Valid()
      ensures var i := Position(old(alerts), index);
              if 0 <= i < |old(alerts)| then
                alerts == old(alerts)[..i] + old(alerts)[i + 1..] &&
                dismissed == old(dismissed) + [DismissedAlert(old(alerts)[i], now)]
              else
                alerts == old(alerts) && dismissed == old(dismissed)
      ensures knownConnections == old(knownConnections)
    {
      var actual := |alerts| - 1 - index;
      if 0 <= actual < |alerts| {
        var gone := alerts[actual];
        alerts := alerts[..actual] + alerts[actual + 1..];
        dismissed := dismissed + [DismissedAlert(gone, now)];
      }
    }

    /** `check_new_network_connections` after the connection list is parsed:
      `current` lists the connections seen now, once each. */
    method CheckNewConnections(current: seq<string>, now: string) returns (raised: seq<Alert>)
      requires NoDuplicates(current)
      requires Valid()
      modifies this
      ensures Valid()
      ensures raised == ConnectionAlerts(NewConnections(current, old(knownConnections)), now)
      ensures knownConnections == Take(current, MaxKnownConnections)
      ensures alerts == old(alerts) && dismissed == old(dismissed)
    {
      var unseen := [];
      var k := 0;
      while k < |current|
        invariant 0 <= k <= |current|
        invariant unseen == NewConnections(current[..k], knownConnections)
      {
        assert current[..k + 1][..k] == current[..k];
        var conn := current[k];
        if conn !in knownConnections && !IsLocalConnection(conn) && !IsSafeHost(conn) {
          unseen := unseen + [conn];
        }
        k := k + 1;
      }
      assert current[..k] == current;
      raised := ConnectionAlerts(unseen, now);
      knownConnections := Take(current, MaxKnownConnections);
    }
  }

  /** Saving keeps at most 500 alerts, puts the new one last, and keeps the
      order of those it keeps: they are the newest of the old log. */
  lemma SaveAlertSpec(alerts: seq<Alert>, a: Alert)
    ensures var r := Last(alerts + [a], MaxAlerts);
            |r| == (if |alerts| < MaxAlerts then |alerts| + 1 else MaxAlerts) &&
            r[|r| - 1] == a &&
            r[..|r| - 1] == alerts[|alerts| + 1 - |r|..]
  {
    var r := Last(alerts + [a], MaxAlerts);
    var kept := alerts[|alerts| + 1 - |r|..];
    assert forall k :: 0 <= k < |kept| ==> r[k] == kept[k];
  }

  /** Dismissing an index in range removes exactly the alert shown there: the
      log loses one entry and that alert, and nothing else. */
  lemma DismissRemovesOne(alerts: seq<Alert>, index: int)
    requires 0 <= Position(alerts, index) < |alerts|
    ensures var i := Position(alerts, index);
            var rest := alerts[..i] + alerts[i + 1..];
            |rest| == |alerts| - 1 &&
            multiset(rest) + multiset{alerts[i]} == multiset(alerts) &&
            (0 <= index ==> alerts[i] == Reversed(alerts)[index])
  {
    var i := Position(alerts, index);
    assert alerts == alerts[..i] + [alerts[i]] + alerts[i + 1..];
  }

  /** Local connections: 127.0.0.1, localhost or ::1 in any letter case. */
  predicate IsLocalConnection(conn: string) {
    var c := Lower(conn);
    Contains(c, "127.0.0.1") || Contains(c, "localhost") || Contains(c, "::1")
  }

  /** The known-safe destinations, matched as case-sensitive substrings. */
  const SafeHosts := [
    "anthropic.com", "api.anthropic.com", "telegram.org", "api.telegram.org",
    "google.com", "googleapis.com", "Google:", "apple.com", "icloud.com",
    "github.com", "githubusercontent.com", "cloudflare.com",
    "2001:67c:4e8:", "2607:f8b0:", "fe80:", "identitys:",
    "140.82.112.", "140.82.113.", "140.82.114.", "151.101.", "192.30.255."]

  predicate IsSafeHost(conn: string) {
    exists k :: 0 <= k < |SafeHosts| && Contains(conn, SafeHosts[k])
  }

  /** The connections of `current` that raise an alert, in order. */
  function NewConnections(current: seq<string>, known: seq<string>): (r: seq<string>)
    ensures |r| <= |current|
  {
    if current == [] then []
    else
      var conn := current[|current| - 1];
      NewConnections(current[..|current| - 1], known)
      + (if conn !in known && !IsLocalConnection(conn) && !IsSafeHost(conn) then [conn] else [])
  }

  /** A connection raises an alert exactly when it is seen now, was not known,
      is not local and matches no safe host; each raises at most one. */
  lemma {:induction false} NewConnectionsIff(current: seq<string>, known: seq<string>, conn: string)
    ensures conn in NewConnections(current, known) <==>
            conn in current && conn !in known && !IsLocalConnection(conn) && !IsSafeHost(conn)
    ensures NoDuplicates(current) ==> NoDuplicates(NewConnections(current, known))
  {
    if current != [] {
      var init := current[..|current| - 1];
      NewConnectionsIff(init, known, conn);
      NewConnectionsIff(init, known, current[|current| - 1]);
      assert current == init + [current[|current| - 1]];
      if NoDuplicates(current) {
        assert NoDuplicates(init);
        assert current[|current| - 1] !in init;
      }
    }
  }

  function ConnectionAlerts(conns: seq<string>, now: string): (r: seq<Alert>)
    ensures |r| == |conns|
    ensures forall k :: 0 <= k < |conns| ==>
              r[k] == Alert("medium", "network", "New network connection", "First time seeing: " + conns[k], now)
  {
    seq(|conns|, k requires 0 <= k < |conns| =>
      Alert("medium", "network", "New network connection", "First time seeing: " + conns[k], now))
  }
}
