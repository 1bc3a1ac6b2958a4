/** The trust engine: a ledger of trusted sessions, a threat-intelligence store
    of custom patterns and blocked addresses, per-session behaviour histograms,
    and the verdict that combines threat matches, session context and command
    risk. */
module Trust {
  import opened Text
  import opened TrustRisk
  import opened TrustContext

  // ------------------------------------------------------------ threat intel

  /** What a threat check reports: the pattern (or address) that matched, why,
      and how severe it is. */
  datatype ThreatHit = ThreatHit(pattern: string, reason: string, severity: string)

  /** The reason and severity stored with a custom pattern. */
  datatype ThreatInfo = ThreatInfo(reason: string, severity: string)

  /** The persisted threat-intelligence store. `patterns` is an insertion-ordered
      dictionary from pattern to its info, written as a list of entries. */
  datatype ThreatStore = ThreatStore(
    patterns: seq<(string, ThreatInfo)>,
    blockedIps: seq<string>,
    blockedDomains: seq<string>)

  const EmptyStore := ThreatStore([], [], [])

  /** The built-in threats, checked first and in this order. */
  const BuiltinThreats: seq<ThreatHit> := [
    ThreatHit(@"pastebin\.com/raw/", "Pastebin raw URL (common malware host)", "high"),
    ThreatHit(@"raw\.githubusercontent\.com.*\.sh\s*\|\s*(?:ba)?sh", "GitHub raw script piped to shell", "medium"),
    ThreatHit(@"(?:[\d]{1,3}\.){3}[\d]{1,3}:\d{4,5}", "Direct IP:port connection (potential C2)", "high"),
    ThreatHit(@"nc\s+-[a-z]*e|ncat.*-e|netcat.*-e", "Netcat reverse shell", "critical"),
    ThreatHit(@"/dev/tcp/|/dev/udp/", "Bash /dev/tcp socket (reverse shell)", "critical"),
    ThreatHit(@"mkfifo.*/tmp/.*\|.*nc", "Named pipe reverse shell", "critical"),
    ThreatHit(@"python.*-c.*socket.*connect", "Python reverse shell", "critical"),
    ThreatHit(@"base64\s+-d.*\|\s*(?:ba)?sh", "Base64 decoded payload executed", "critical")
  ]

  /** Pattern keys are unique, as in a dictionary. */
  predicate UniqueKeys(entries: seq<(string, ThreatInfo)>) {
    forall i, j :: 0 <= i < j < |entries| ==> entries[i].0 != entries[j].0
  }

  /** `d[key] = info`: an existing key keeps its position and takes the new
      info; a new key goes last. */
  function Put(entries: seq<(string, ThreatInfo)>, key: string, info: ThreatInfo): seq<(string, ThreatInfo)> {
    match FirstIndex(entries, (e: (string, ThreatInfo)) => e.0 == key)
    case Some(i) => entries[i := (key, info)]
    case None => entries + [(key, info)]
  }

  /** After `Put` the keys are still unique, `key` maps to `info`, and every
      other entry is where it was. */
  lemma PutSpec(entries: seq<(string, ThreatInfo)>, key: string, info: ThreatInfo)
    requires UniqueKeys(entries)
    ensures var r := Put(entries, key, info);
            UniqueKeys(r) &&
            (exists i :: 0 <= i < |r| && r[i] == (key, info)) &&
            (forall i :: 0 <= i < |entries| && entries[i].0 != key ==> r[i] == entries[i]) &&
            (|r| == |entries| <==> exists i :: 0 <= i < |entries| && entries[i].0 == key) &&
            (|r| == |entries| + 1 <==> forall i :: 0 <= i < |entries| ==> entries[i].0 != key)
  {
    var r := Put(entries, key, info);
    match FirstIndex(entries, (e: (string, ThreatInfo)) => e.0 == key)
    case Some(i) =>
      assert r[i] == (key, info);
    case None =>
      assert r[|entries|] == (key, info);
  }

  /** The first built-in threat whose pattern matches the lower-cased text. */
  function BuiltinHit(search: Search, builtin: seq<ThreatHit>, lower: string): (r: Option<ThreatHit>)
    ensures r.None? <==> forall k :: 0 <= k < |builtin| ==> !search(builtin[k].pattern, lower)
    ensures forall k :: 0 <= k < |builtin| && search(builtin[k].pattern, lower) &&
                        (forall j :: 0 <= j < k ==> !search(builtin[j].pattern, lower)) ==>
              r == Some(builtin[k])
  {
    match FirstIndex(builtin, (t: ThreatHit) => search(t.pattern, lower))
    case Some(i) => Some(builtin[i])
    case None => None
  }

  /** The first custom pattern, in insertion order, that matches the
      lower-cased text, reported with its stored reason and severity. */
  function CustomHit(search: Search, patterns: seq<(string, ThreatInfo)>, lower: string): (r: Option<ThreatHit>)
    ensures r.None? <==> forall k :: 0 <= k < |patterns| ==> !search(patterns[k].0, lower)
    ensures forall k :: 0 <= k < |patterns| && search(patterns[k].0, lower) &&
                        (forall j :: 0 <= j < k ==> !search(patterns[j].0, lower)) ==>
              r == Some(ThreatHit(patterns[k].0, patterns[k].1.reason, patterns[k].1.severity))
  {
    match FirstIndex(patterns, (e: (string, ThreatInfo)) => search(e.0, lower))
    case Some(i) => Some(ThreatHit(patterns[i].0, patterns[i].1.reason, patterns[i].1.severity))
    case None => None
  }

  const BlockedIpReason := "Blocked IP address"
  const BlockedDomainReason := "Blocked domain"

  /** The first blocked IP that occurs, case-sensitively, in the original text. */
  function IpHit(ips: seq<string>, text: string): (r: Option<ThreatHit>)
    ensures r.None? <==> forall k :: 0 <= k < |ips| ==> !Contains(text, ips[k])
    ensures forall k :: 0 <= k < |ips| && Contains(text, ips[k]) &&
                        (forall j :: 0 <= j < k ==> !Contains(text, ips[j])) ==>
              r == Some(ThreatHit(ips[k], BlockedIpReason, "high"))
  {
    match FirstIndex(ips, (ip: string) => Contains(text, ip))
    case Some(i) => Some(ThreatHit(ips[i], BlockedIpReason, "high"))
    case None => None
  }

  /** `domain.lower() in text_lower`. */
  predicate DomainIn(lower: string, domain: string) {
    Contains(lower, Lower(domain))
  }

  /** The first blocked domain that occurs, ignoring case, in the text. */
  function DomainHit(domains: seq<string>, lower: string): (r: Option<ThreatHit>)
    ensures r.None? <==> forall k :: 0 <= k < |domains| ==> !DomainIn(lower, domains[k])
    ensures forall k :: 0 <= k < |domains| && DomainIn(lower, domains[k]) &&
                        (forall j :: 0 <= j < k ==> !DomainIn(lower, domains[j])) ==>
              r == Some(ThreatHit(domains[k], BlockedDomainReason, "high"))
  {
    match FirstIndex(domains, (d: string) => DomainIn(lower, d))
    case Some(i) => Some(ThreatHit(domains[i], BlockedDomainReason, "high"))
    case None => None
  }

  /** `check_threat_intel` over any built-in table: the built-in patterns, then
      the custom patterns, then the blocked IPs, then the blocked domains; the
      first hit wins. */
  function FirstThreat(search: Search, builtin: seq<ThreatHit>, store: ThreatStore, text: string): Option<ThreatHit> {
    var lower := Lower(text);
    var b := BuiltinHit(search, builtin, lower);
    if b.Some? then b else
    var c := CustomHit(search, store.patterns, lower);
    if c.Some? then c else
    var i := IpHit(store.blockedIps, text);
    if i.Some? then i else
    DomainHit(store.blockedDomains, lower)
  }

  /** `check_threat_intel` with the built-in table. */
  function CheckThreatIntel(search: Search, store: ThreatStore, text: string): Option<ThreatHit> {
    FirstThreat(search, BuiltinThreats, store, text)
  }

  /** Nothing is reported exactly when no scan finds anything; a report always
      comes from the earliest scan that finds something. */
  lemma FirstThreatOrder(search: Search, builtin: seq<ThreatHit>, store: ThreatStore, text: string)
    ensures var lower := Lower(text);
            var r := FirstThreat(search, builtin, store, text);
            var b, c, i, d := BuiltinHit(search, builtin, lower), CustomHit(search, store.patterns, lower),
                              IpHit(store.blockedIps, text), DomainHit(store.blockedDomains, lower);
            (r.None? <==> b.None? && c.None? && i.None? && d.None?) &&
            (b.Some? ==> r == b) &&
            (b.None? && c.Some? ==> r == c) &&
            (b.None? && c.None? && i.Some? ==> r == i) &&
            (b.None? && c.None? && i.None? ==> r == d)
  {
  }

  /** A blocked-address report is high and names an address that is blocked. */
  lemma BlockedAddressReport(search: Search, builtin: seq<ThreatHit>, store: ThreatStore, text: string)
    requires BuiltinHit(search, builtin, Lower(text)).None? && CustomHit(search, store.patterns, Lower(text)).None?
    ensures var r := FirstThreat(search, builtin, store, text);
            r.Some? ==> r.value.severity == "high" &&
                        ((r.value.reason == BlockedIpReason && r.value.pattern in store.blockedIps && Contains(text, r.value.pattern)) ||
                         (r.value.reason == BlockedDomainReason && r.value.pattern in store.blockedDomains &&
                          DomainIn(Lower(text), r.value.pattern)))
  {
    var lower := Lower(text);
    var i := IpHit(store.blockedIps, text);
    if i.Some? {
      var k := FirstIndex(store.blockedIps, (ip: string) => Contains(text, ip));
      assert i.value.pattern == store.blockedIps[k.value];
    } else {
      var d := DomainHit(store.blockedDomains, lower);
      if d.Some? {
        var k := FirstIndex(store.blockedDomains, (dm: string) => DomainIn(lower, dm));
        assert d.value.pattern == store.blockedDomains[k.value];
      }
    }
  }

  /** The four scans of `check_threat_intel`, each a loop with an early return. */
  method FindThreat(search: Search, builtin: seq<ThreatHit>, store: ThreatStore, text: string) returns (r: Option<ThreatHit>)
    ensures r == FirstThreat(search, builtin, store, text)
  {
    var lower := Lower(text);
    var i := FindFirst(builtin, (t: ThreatHit) => search(t.pattern, lower));
    if i.Some? {
      return Some(builtin[i.value]);
    }
    i := FindFirst(store.patterns, (e: (string, ThreatInfo)) => search(e.0, lower));
    if i.Some? {
      var e := store.patterns[i.value];
      return Some(ThreatHit(e.0, e.1.reason, e.1.severity));
    }
    i := FindFirst(store.blockedIps, (ip: string) => Contains(text, ip));
    if i.Some? {
      return Some(ThreatHit(store.blockedIps[i.value], BlockedIpReason, "high"));
    }
    i := FindFirst(store.blockedDomains, (d: string) => DomainIn(lower, d));
    if i.Some? {
      return Some(ThreatHit(store.blockedDomains[i.value], BlockedDomainReason, "high"));
    }
    return None;
  }

  // ------------------------------------------------------------ trust ledger

  /** A trusted id `t` covers `sessionId` when either starts with the first
      eight characters of the other (ids may be truncated in logs). */
  predicate TrustMatch(t: string, sessionId: string) {
    Take(t, 8) <= sessionId || Take(sessionId, 8) <= t
  }

  /** `is_trusted_session`: some trusted id covers `sessionId`. */
  predicate IsTrustedIn(trusted: set<string>, sessionId: string) {
    exists t :: t in trusted && TrustMatch(t, sessionId)
  }

  /** A trusted id is trusted, and so is any id sharing its first eight characters. */
  lemma TrustedAfterTrust(trusted: set<string>, id: string, other: string)
    requires Take(id, 8) <= other
    ensures IsTrustedIn(trusted + {id}, id)
    ensures IsTrustedIn(trusted + {id}, other)
  {
    assert Take(id, 8) <= id;
    assert id in trusted + {id} && TrustMatch(id, id) && TrustMatch(id, other);
  }

  /** Trusting "abcdef123456789" makes "abcdef12" trusted. */
  lemma PartialIdTrusted(trusted: set<string>)
    ensures IsTrustedIn(trusted + {"abcdef123456789"}, "abcdef12")
  {
    var t := "abcdef123456789";
    assert Take(t, 8) == "abcdef12";
    assert TrustMatch(t, "abcdef12");
    assert t in trusted + {t};
  }

  /** Trusting more sessions never distrusts one. */
  lemma TrustMonotone(trusted: set<string>, id: string, other: string)
    requires IsTrustedIn(trusted, other)
    ensures IsTrustedIn(trusted + {id}, other)
  {
    var t :| t in trusted && TrustMatch(t, other);
    assert t in trusted + {id};
  }

  /** After untrusting, a session is trusted only through some other trusted id;
      untrusting the only trusted session leaves nothing trusted. */
  lemma UntrustRemovesOnlyThatId(trusted: set<string>, id: string, other: string)
    ensures IsTrustedIn(trusted - {id}, other) <==>
            exists t :: t in trusted && t != id && TrustMatch(t, other)
    ensures !IsTrustedIn({id} - {id}, other)
  {
    if exists t :: t in trusted && t != id && TrustMatch(t, other) {
      var t :| t in trusted && t != id && TrustMatch(t, other);
      assert t in trusted - {id};
    }
    assert {id} - {id} == {};
  }

  /** The empty id is trusted as soon as anything is: every id starts with it.
      `evaluate_command` never asks about an empty id. */
  lemma EmptyIdTrustedByAny(trusted: set<string>)
    ensures IsTrustedIn(trusted, "") <==> trusted != {}
  {
    if trusted != {} {
      var t :| t in trusted;
      assert Take("", 8) <= t;
      assert TrustMatch(t, "");
    }
  }

  // ------------------------------------------------------------ session baselines

  /** The histogram `update_baseline` keeps for one session. */
  datatype SessionBaseline = SessionBaseline(
    commonCommands: map<string, nat>,
    commonPaths: map<string, nat>,
    commonHosts: map<string, nat>,
    activityHours: seq<nat>,
    totalActions: nat)

  /** One activity, with absent fields as "". */
  datatype Activity = Activity(command: string, path: string, host: string)

  const HoursPerDay := 24
  const MinSessionActions := 50

  const NewSessionBaseline := SessionBaseline(map[], map[], map[], seq(HoursPerDay, _ => 0), 0)

  predicate WellFormed(b: SessionBaseline) {
    |b.activityHours| == HoursPerDay
  }

  /** The command base counted for an activity: its first token, "" for none. */
  function CommandBase(a: Activity): string {
    FirstTokenOr(a.command, "")
  }

  /** The session histogram after one more activity at `hour`. */
  function Recorded(b: SessionBaseline, a: Activity, hour: nat): SessionBaseline
    requires WellFormed(b) && hour < HoursPerDay
  {
    var base := CommandBase(a);
    SessionBaseline(
      if base != "" then Bump(b.commonCommands, base) else b.commonCommands,
      if a.path != "" then Bump(b.commonPaths, Parent(a.path)) else b.commonPaths,
      if a.host != "" then Bump(b.commonHosts, a.host) else b.commonHosts,
      b.activityHours[hour := b.activityHours[hour] + 1],
      b.totalActions + 1)
  }

  /** One recorded activity adds exactly one action and one hour, and counts
      its command base, path parent and host, each once, when present. */
  lemma RecordedCounts(b: SessionBaseline, a: Activity, hour: nat)
    requires WellFormed(b) && hour < HoursPerDay
    ensures var r := Recorded(b, a, hour);
            WellFormed(r) && r.totalActions == b.totalActions + 1 &&
            r.activityHours[hour] == b.activityHours[hour] + 1 &&
            (forall h :: 0 <= h < HoursPerDay && h != hour ==> r.activityHours[h] == b.activityHours[h]) &&
            (CommandBase(a) != "" ==> r.commonCommands == Bump(b.commonCommands, CommandBase(a))) &&
            (CommandBase(a) == "" ==> r.commonCommands == b.commonCommands) &&
            (a.path != "" ==> r.commonPaths == Bump(b.commonPaths, Parent(a.path))) &&
            (a.path == "" ==> r.commonPaths == b.commonPaths) &&
            (a.host != "" ==> r.commonHosts == Bump(b.commonHosts, a.host)) &&
            (a.host == "" ==> r.commonHosts == b.commonHosts)
  {
  }

  /** A command with at least one non-space character has a non-empty base,
      which the histogram then knows. */
  lemma RecordedKnowsCommand(b: SessionBaseline, a: Activity, hour: nat, i: nat)
    requires WellFormed(b) && hour < HoursPerDay
    requires i < |a.command| && !IsSpace(a.command[i])
    ensures CommandBase(a) != "" && CommandBase(a) in Recorded(b, a, hour).commonCommands
  {
    var s := a.command;
    var j := RunLength(s, IsSpace);
    assert j <= i;
    FirstTokenIsLeadingRun(s, j);
    assert s[j] == FirstTokenOr(s, "")[0];
  }

  /** `update_baseline` exactly as written: the histogram it leaves, and
      whether it raised. For a non-empty all-whitespace command `split()[0]`
      raises IndexError after `total_actions` was bumped and before anything
      else is counted. */
  function RecordedAsWritten(b: SessionBaseline, a: Activity, hour: nat): (SessionBaseline, bool)
    requires WellFormed(b) && hour < HoursPerDay
  {
    match FirstTokenAsWritten(a.command, "")
    case None => (b.(totalActions := b.totalActions + 1), true)
    case Some(_) => (Recorded(b, a, hour), false)
  }

  /** As written, recording raises exactly for a non-empty all-whitespace
      command, leaving only the total bumped; otherwise it records what the
      corrected histogram records. */
  lemma RecordedAsWrittenRaises(b: SessionBaseline, a: Activity, hour: nat)
    requires WellFormed(b) && hour < HoursPerDay
    ensures var (r, raised) := RecordedAsWritten(b, a, hour);
            (raised <==> a.command != [] && forall i :: 0 <= i < |a.command| ==> IsSpace(a.command[i])) &&
            (raised ==> r.totalActions == b.totalActions + 1 && r.activityHours == b.activityHours &&
                        r.commonCommands == b.commonCommands && r.commonPaths == b.commonPaths &&
                        r.commonHosts == b.commonHosts) &&
            (!raised ==> r == Recorded(b, a, hour))
  {
    FirstTokenAsWrittenRaises(a.command, "");
  }

  datatype SessionAnomaly = SessionAnomaly(anomalies: seq<string>, baselineActions: nat)

  const UnusualCommand := "Unusual command: "
  const UnusualPath := "Unusual path: "
  const UnusualHost := "Unusual host: "
  const UnusualHour := "Unusual activity hour: "

  /** The anomalies of one activity against a session histogram, in order. */
  function AnomalyReasons(b: SessionBaseline, a: Activity, hour: nat): seq<string>
    requires WellFormed(b) && hour < HoursPerDay
  {
    var base := CommandBase(a);
    (if base != "" && base !in b.commonCommands then [UnusualCommand + base] else [])
    + (if a.path != "" && Parent(a.path) !in b.commonPaths then [UnusualPath + Parent(a.path)] else [])
    + (if a.host != "" && a.host !in b.commonHosts then [UnusualHost + a.host] else [])
    + (if b.activityHours[hour] == 0 then [UnusualHour + NatToString(hour) + ":00"] else [])
  }

  /** `check_anomaly` for a session. */
  function CheckSessionAnomaly(baseline: map<string, SessionBaseline>, sessionId: string, a: Activity, hour: nat): Option<SessionAnomaly>
    requires sessionId in baseline ==> WellFormed(baseline[sessionId])
    requires hour < HoursPerDay
  {
    if sessionId !in baseline then None
    else
      var b := baseline[sessionId];
      if b.totalActions < MinSessionActions then None
      else
        var reasons := AnomalyReasons(b, a, hour);
        if reasons != [] then Some(SessionAnomaly(reasons, b.totalActions)) else None
  }

  /** `check_anomaly` exactly as written: the outer `None` stands for the
      IndexError that `split()[0]` raises for a non-empty all-whitespace
      command, before any reason is built. */
  function CheckSessionAnomalyAsWritten(baseline: map<string, SessionBaseline>, sessionId: string, a: Activity, hour: nat): Option<Option<SessionAnomaly>>
    requires sessionId in baseline ==> WellFormed(baseline[sessionId])
    requires hour < HoursPerDay
  {
    if sessionId !in baseline then Some(None)
    else if baseline[sessionId].totalActions < MinSessionActions then Some(None)
    else if FirstTokenAsWritten(a.command, "").None? then None
    else Some(CheckSessionAnomaly(baseline, sessionId, a, hour))
  }

  /** As written, the session check raises exactly for a known session with
      enough actions and a non-empty all-whitespace command; otherwise it
      agrees with the corrected check. */
  lemma CheckSessionAnomalyAsWrittenRaises(baseline: map<string, SessionBaseline>, sessionId: string, a: Activity, hour: nat)
    requires sessionId in baseline ==> WellFormed(baseline[sessionId])
    requires hour < HoursPerDay
    ensures CheckSessionAnomalyAsWritten(baseline, sessionId, a, hour).None? <==>
              sessionId in baseline && baseline[sessionId].totalActions >= MinSessionActions &&
              a.command != [] && forall i :: 0 <= i < |a.command| ==> IsSpace(a.command[i])
    ensures CheckSessionAnomalyAsWritten(baseline, sessionId, a, hour).Some? ==>
              CheckSessionAnomalyAsWritten(baseline, sessionId, a, hour).value == CheckSessionAnomaly(baseline, sessionId, a, hour)
  {
    FirstTokenAsWrittenRaises(a.command, "");
  }

  lemma PrefixesDiffer()
    ensures UnusualCommand[8] == 'c' && UnusualPath[8] == 'p' && UnusualHost[8] == 'h' && UnusualHour[8] == 'a'
    ensures |UnusualCommand| > 8 && |UnusualPath| > 8 && |UnusualHost| > 8 && |UnusualHour| > 8
  {
  }

  /** No report for an unknown session or one with fewer than 50 actions;
      otherwise a report exactly when some anomaly is found, carrying the count. */
  lemma SessionAnomalyGate(baseline: map<string, SessionBaseline>, sessionId: string, a: Activity, hour: nat)
    requires sessionId in baseline ==> WellFormed(baseline[sessionId])
    requires hour < HoursPerDay
    ensures sessionId !in baseline ==> CheckSessionAnomaly(baseline, sessionId, a, hour).None?
    ensures sessionId in baseline && baseline[sessionId].totalActions < MinSessionActions ==>
              CheckSessionAnomaly(baseline, sessionId, a, hour).None?
    ensures sessionId in baseline && baseline[sessionId].totalActions >= MinSessionActions ==>
              var b := baseline[sessionId];
              var r := CheckSessionAnomaly(baseline, sessionId, a, hour);
              (r.Some? <==> AnomalyReasons(b, a, hour) != []) &&
              (r.Some? ==> r.value.baselineActions == b.totalActions && |r.value.anomalies| <= 4)
  {
  }

  /** An unusual-command anomaly is reported exactly when the command has a
      base the histogram has never counted. */
  lemma UnusualCommandIff(b: SessionBaseline, a: Activity, hour: nat)
    requires WellFormed(b) && hour < HoursPerDay
    ensures UnusualCommand + CommandBase(a) in AnomalyReasons(b, a, hour) <==>
            CommandBase(a) != "" && CommandBase(a) !in b.commonCommands
  {
    PrefixesDiffer();
    var c := UnusualCommand + CommandBase(a);
    assert c[8] == 'c';
  }

  /** An unusual-path anomaly is reported exactly when the path's directory has
      never been counted. */
  lemma UnusualPathIff(b: SessionBaseline, a: Activity, hour: nat)
    requires WellFormed(b) && hour < HoursPerDay
    ensures UnusualPath + Parent(a.path) in AnomalyReasons(b, a, hour) <==>
            a.path != "" && Parent(a.path) !in b.commonPaths
  {
    PrefixesDiffer();
    var p := UnusualPath + Parent(a.path);
    assert p[8] == 'p';
  }

  /** An unusual-host anomaly is reported exactly when the host has never been counted. */
  lemma UnusualHostIff(b: SessionBaseline, a: Activity, hour: nat)
    requires WellFormed(b) && hour < HoursPerDay
    ensures UnusualHost + a.host in AnomalyReasons(b, a, hour) <==>
            a.host != "" && a.host !in b.commonHosts
  {
    PrefixesDiffer();
    var h := UnusualHost + a.host;
    assert h[8] == 'h';
  }

  /** An unusual-hour anomaly is reported exactly when nothing was recorded at that hour. */
  lemma UnusualHourIff(b: SessionBaseline, a: Activity, hour: nat)
    requires WellFormed(b) && hour < HoursPerDay
    ensures UnusualHour + NatToString(hour) + ":00" in AnomalyReasons(b, a, hour) <==>
            b.activityHours[hour] == 0
  {
    PrefixesDiffer();
    var t := UnusualHour + NatToString(hour) + ":00";
    assert t[8] == 'a';
  }

  // ------------------------------------------------------------ verdicts

  /** What `evaluate_command` returns. */
  datatype Evaluation = Evaluation(
    trustLevel: TrustLevel,
    isTrustedSession: bool,
    userRequested: bool,
    threatMatch: Option<ThreatHit>,
    recommendation: string,
    riskAnalysis: RiskProfile)

  const AllowTrustedRequested := "ALLOW: Trusted session, user requested"
  /** Written as its first word and the rest, since the verifier does not look
      inside a literal this long. */
  const AllowTrustedLogged := "ALLOW" + " with logging: Trusted session, action not explicitly requested"
  const AllowRequested := "ALLOW: User requested this action"
  const ReviewUnrequested := "REVIEW: No trusted session or user request"

  /** The verdict with session context, by trusted session and user request. */
  function ContextVerdict(trustedSession: bool, requested: bool): (TrustLevel, string) {
    if trustedSession && requested then (Trusted, AllowTrustedRequested)
    else if trustedSession then (Verified, AllowTrustedLogged)
    else if requested then (Verified, AllowRequested)
    else (Suspicious, ReviewUnrequested)
  }

  /** Each context recommendation begins with its action word. */
  lemma ContextRecommendationWords()
    ensures "ALLOW" <= AllowTrustedRequested && "ALLOW" <= AllowTrustedLogged && "ALLOW" <= AllowRequested
    ensures "REVIEW" <= ReviewUnrequested
  {
    PrefixByChars("ALLOW", AllowTrustedRequested);
    PrefixOfConcat("ALLOW", " with logging: Trusted session, action not explicitly requested");
    PrefixByChars("ALLOW", AllowRequested);
    PrefixByChars("REVIEW", ReviewUnrequested);
  }

  /** The verdict without session context, by risk level. The source's fifth,
      "UNKNOWN" branch cannot be reached: the level is always one of four. */
  function RiskVerdict(risk: RiskProfile): (TrustLevel, string) {
    match risk.level
    case High => (Suspicious, "REVIEW: " + risk.summary)
    case Medium => (Unverified, "CAUTION: " + risk.summary)
    case Low => (Verified, "LIKELY SAFE: " + risk.summary)
    case Minimal => (Trusted, "SAFE: " + risk.summary)
  }

  /** How `evaluate_command` combines its findings: whether the session is
      trusted, the threat match, the risk analysis and, when a session file was
      given, whether the user asked for the command. */
  function Verdict(isTrusted: bool, threat: Option<ThreatHit>, risk: RiskProfile, requested: Option<bool>): Evaluation {
    match threat
    case Some(hit) =>
      Evaluation(Malicious, isTrusted, false, Some(hit), "BLOCK: Matches threat intel - " + hit.reason, risk)
    case None =>
      match requested
      case Some(u) =>
        var v := ContextVerdict(isTrusted, u);
        Evaluation(v.0, isTrusted, u, None, v.1, risk)
      case None =>
        var v := RiskVerdict(risk);
        Evaluation(v.0, isTrusted, false, None, v.1, risk)
  }

  /** The session is looked up only for a non-empty id. */
  function SessionTrusted(trusted: set<string>, sessionId: Option<string>): bool {
    sessionId.Some? && sessionId.value != "" && IsTrustedIn(trusted, sessionId.value)
  }

  /** Whether the user asked for the command, when a session file is given. */
  function RequestedIn(sessionFile: Option<SessionFile>, command: string): Option<bool> {
    match sessionFile
    case Some(file) => Some(Context(file, command).userRequested)
    case None => None
  }

  /** The verdict once the session lookup and the risk analysis are done: the
      threat check, then (when a session file is given) the context check. */
  function Assess(search: Search, store: ThreatStore, command: string, isTrusted: bool,
                  risk: RiskProfile, sessionFile: Option<SessionFile>): Evaluation
  {
    Verdict(isTrusted, CheckThreatIntel(search, store, command), risk, RequestedIn(sessionFile, command))
  }

  /** `evaluate_command` over the engine's trusted sessions and threat store. */
  function Evaluate(search: Search, trusted: set<string>, store: ThreatStore, command: string,
                    sessionId: Option<string>, sessionFile: Option<SessionFile>): Evaluation
  {
    Assess(search, store, command, SessionTrusted(trusted, sessionId), Risk(search, command), sessionFile)
  }

  /** A threat match decides the verdict, whatever the session: malicious, a
      "BLOCK" recommendation naming the reason, and the match attached; and only
      a threat match makes a verdict malicious. The session flag and the risk
      analysis are always passed through. */
  lemma ThreatDominates(isTrusted: bool, threat: Option<ThreatHit>, risk: RiskProfile, requested: Option<bool>)
    ensures var r := Verdict(isTrusted, threat, risk, requested);
            r.riskAnalysis == risk && r.isTrustedSession == isTrusted &&
            r.threatMatch == threat &&
            (r.trustLevel == Malicious <==> threat.Some?) &&
            (threat.Some? ==> r.recommendation == "BLOCK: Matches threat intel - " + threat.value.reason && !r.userRequested)
  {
  }

  /** With a session file and no threat, the verdict follows the four-row table
      of trusted session and user request. */
  lemma ContextTable(isTrusted: bool, risk: RiskProfile, u: bool)
    ensures var r := Verdict(isTrusted, None, risk, Some(u));
            r.userRequested == u && r.threatMatch.None? &&
            (r.trustLevel == Trusted <==> isTrusted && u) &&
            (r.trustLevel == Verified <==> isTrusted != u) &&
            (r.trustLevel == Suspicious <==> !isTrusted && !u) &&
            (isTrusted && u ==> r.recommendation == AllowTrustedRequested) &&
            (isTrusted && !u ==> r.recommendation == AllowTrustedLogged) &&
            (!isTrusted && u ==> r.recommendation == AllowRequested) &&
            (!isTrusted && !u ==> r.recommendation == ReviewUnrequested)
  {
  }

  /** Without a session file and with no threat, minimal risk is trusted, low is
      verified, medium unverified and high suspicious, and the recommendation
      carries the risk summary. */
  lemma NoContextTable(isTrusted: bool, risk: RiskProfile)
    ensures var r := Verdict(isTrusted, None, risk, None);
            !r.userRequested &&
            (r.trustLevel == Trusted <==> risk.level == Minimal) &&
            (r.trustLevel == Verified <==> risk.level == Low) &&
            (r.trustLevel == Unverified <==> risk.level == Medium) &&
            (r.trustLevel == Suspicious <==> risk.level == High) &&
            Last(r.recommendation, |risk.summary|) == risk.summary
  {
  }

  /** The fixture transcript: two user and two assistant messages. */
  const FixtureTranscript := Transcript([
    MessageEntry("user", TextContent("Please run npm install")),
    MessageEntry("assistant", TextContent("I'll run npm install for you.")),
    MessageEntry("user", TextContent("Now build the project")),
    MessageEntry("assistant", TextContent("Running npm run build..."))])

  /** In the fixture transcript the user asked for `npm install`. */
  lemma FixtureRequestsNpmInstall()
    ensures Context(FixtureTranscript, "npm install").userRequested
  {
    var lines := FixtureTranscript.lines;
    var msgs := Messages(Last(lines, MaxEntries));
    assert Last(lines, MaxEntries) == lines;
    var m := Message("user", "Please run npm install");
    assert MessageOf(lines[0]) == Some(m);
    MessagesMembers(lines, m);
    assert |msgs| <= 4;
    var k :| 0 <= k < |msgs| && msgs[k] == m;
    NpmInMessage();
    NpmInCommand();
    assert Requests(msgs[k], Lower("npm install"));
    CheckUserRequestIff(msgs, "npm install");
  }

  /** With a session file that asks for `npm install`, the lookup reports a request. */
  lemma FixtureRequested()
    ensures RequestedIn(Some(FixtureTranscript), "npm install") == Some(true)
  {
    FixtureRequestsNpmInstall();
  }

  lemma SessionTrustedAfterTrust(trusted: set<string>, id: string)
    requires id != ""
    ensures SessionTrusted(trusted + {id}, Some(id))
  {
    TrustedAfterTrust(trusted, id, id);
  }

  /** A trusted session whose transcript asks for `npm install` gets a trusted,
      "ALLOW" verdict for it when no threat matches. */
  lemma TrustedRequestedAllowed(trusted: set<string>, risk: RiskProfile)
    ensures var r := Verdict(SessionTrusted(trusted + {"trusted-123"}, Some("trusted-123")), None, risk,
                             RequestedIn(Some(FixtureTranscript), "npm install"));
            r.trustLevel == Trusted && r.isTrustedSession && r.userRequested && r.recommendation == AllowTrustedRequested
  {
    SessionTrustedAfterTrust(trusted, "trusted-123");
    FixtureRequested();
  }

  // ------------------------------------------------------------ the engine

  /** The engine's mutable state: the trusted-session set, the threat store and
      the per-session histograms. Loading and saving the JSON files is not modelled;
      a fresh engine starts empty. */
  class TrustEngine {
    var trustedSessions: set<string>
    var threatIntel: ThreatStore
    var baseline: map<string, SessionBaseline>

    ghost predicate Valid()
      reads this
    {
      UniqueKeys(threatIntel.patterns) &&
      NoDuplicates(threatIntel.blockedIps) && NoDuplicates(threatIntel.blockedDomains) &&
      forall id :: id in baseline ==> WellFormed(baseline[id])
    }

    constructor()
      ensures Valid()
      ensures trustedSessions == {} && threatIntel == EmptyStore && baseline == map[]
    {
      trustedSessions := {};
      threatIntel := EmptyStore;
      baseline := map[];
    }

    /** `trust_session`: set insertion. */
    method TrustSession(sessionId: string)
      requires Valid()
      modifies this
      ensures Valid()
      ensures trustedSessions == old(trustedSessions) + {sessionId}
      ensures threatIntel == old(threatIntel) && baseline == old(baseline)
    {
      trustedSessions := trustedSessions + {sessionId};
    }

    /** `untrust_session`: set discard. */
    method UntrustSession(sessionId: string)
      requires Valid()
      modifies this
      ensures Valid()
      ensures trustedSessions == old(trustedSessions) - {sessionId}
      ensures threatIntel == old(threatIntel) && baseline == old(baseline)
    {
      trustedSessions := trustedSessions - {sessionId};
    }

    /** `add_threat_pattern`: store or overwrite the pattern's info. */
    method AddThreatPattern(pattern: string, reason: string, severity: string)
      requires Valid()
      modifies this
      ensures Valid()
      ensures threatIntel == old(threatIntel).(patterns := Put(old(threatIntel).patterns, pattern, ThreatInfo(reason, severity)))
      ensures trustedSessions == old(trustedSessions) && baseline == old(baseline)
    {
      PutSpec(threatIntel.patterns, pattern, ThreatInfo(reason, severity));
      threatIntel := threatIntel.(patterns := Put(threatIntel.patterns, pattern, ThreatInfo(reason, severity)));
    }

    /** `block_ip`: append unless already blocked. */
    method BlockIp(ip: string)
      requires Valid()
      modifies this
      ensures Valid()
      ensures ip in old(threatIntel).blockedIps ==> threatIntel == old(threatIntel)
      ensures ip !in old(threatIntel).blockedIps ==>
                threatIntel == old(threatIntel).(blockedIps := old(threatIntel).blockedIps + [ip])
      ensures trustedSessions == old(trustedSessions) && baseline == old(baseline)
    {
      if ip !in threatIntel.blockedIps {
        threatIntel := threatIntel.(blockedIps := threatIntel.blockedIps + [ip]);
      }
    }

    /** `block_domain`: append unless already blocked. */
    method BlockDomain(domain: string)
      requires Valid()
      modifies this
      ensures Valid()
      ensures domain in old(threatIntel).blockedDomains ==> threatIntel == old(threatIntel)
      ensures domain !in old(threatIntel).blockedDomains ==>
                threatIntel == old(threatIntel).(blockedDomains := old(threatIntel).blockedDomains + [domain])
      ensures trustedSessions == old(trustedSessions) && baseline == old(baseline)
    {
      if domain !in threatIntel.blockedDomains {
        threatIntel := threatIntel.(blockedDomains := threatIntel.blockedDomains + [domain]);
      }
    }

    /** `update_baseline`: create the session's histogram on first use, then
      count the activity at `hour` (the clock's hour of day). */
    method UpdateBaseline(sessionId: string, activity: Activity, hour: nat)
      requires Valid() && hour < HoursPerDay
      modifies this
      ensures Valid()
      ensures baseline == old(baseline)[sessionId :=
                Recorded(if sessionId in old(baseline) then old(baseline)[sessionId] else NewSessionBaseline, activity, hour)]
      ensures trustedSessions == old(trustedSessions) && threatIntel == old(threatIntel)
    {
      var b := if sessionId in baseline then baseline[sessionId] else NewSessionBaseline;
      var total := b.totalActions + 1;
      var commands := b.commonCommands;
      var base := FirstTokenOr(activity.command, "");
      if base != "" {
        commands := Bump(commands, base);
      }
      var paths := b.commonPaths;
      if activity.path != "" {
        paths := Bump(paths, Parent(activity.path));
      }
      var hosts := b.commonHosts;
      if activity.host != "" {
        hosts := Bump(hosts, activity.host);
      }
      var hours := b.activityHours[hour := b.activityHours[hour] + 1];
      baseline := baseline[sessionId := SessionBaseline(commands, paths, hosts, hours, total)];
    }

    /** `check_anomaly` on the engine's histograms. */
    function CheckAnomaly(sessionId: string, activity: Activity, hour: nat): Option<SessionAnomaly>
      reads this
      requires Valid() && hour < HoursPerDay
    {
      CheckSessionAnomaly(baseline, sessionId, activity, hour)
    }

    /** `is_trusted_session`: the loop over the trusted ids, returning on the
      first one that covers `sessionId`. */
    method IsTrustedSession(sessionId: string) returns (b: bool)
      ensures b == IsTrustedIn(trustedSessions, sessionId)
    {
      var rest := trustedSessions;
      while rest != {}
        invariant rest <= trustedSessions
        invariant forall t :: t in trustedSessions && t !in rest ==> !TrustMatch(t, sessionId)
        decreases |rest|
      {
        var t :| t in rest;
        if TrustMatch(t, sessionId) {
          return true;
        }
        rest := rest - {t};
      }
      return false;
    }

    /** The session check of `evaluate_command`: only a non-empty id is looked up. */
    method LookUpSession(sessionId: Option<string>) returns (b: bool)
      ensures b == SessionTrusted(trustedSessions, sessionId)
    {
      b := false;
      if sessionId.Some? && sessionId.value != "" {
        b := IsTrustedSession(sessionId.value);
      }
    }

    /** `check_threat_intel` on the engine's store. */
    method CheckThreats(search: Search, text: string) returns (r: Option<ThreatHit>)
      ensures r == CheckThreatIntel(search, threatIntel, text)
    {
      r := FindThreat(search, BuiltinThreats, threatIntel, text);
    }

    /** The second half of `evaluate_command`: the threat check with its early
      return, then the context or risk verdict. */
    method Decide(search: Search, command: string, isTrusted: bool, risk: RiskProfile, sessionFile: Option<SessionFile>)
      returns (r: Evaluation)
      ensures r == Assess(search, threatIntel, command, isTrusted, risk, sessionFile)
    {
      var threat := CheckThreats(search, command);
      if threat.Some? {
        return Evaluation(Malicious, isTrusted, false, threat, "BLOCK: Matches threat intel - " + threat.value.reason, risk);
      }
      if sessionFile.Some? {
        var context := AnalyzeContext(sessionFile.value, command);
        var v := ContextVerdict(isTrusted, context.userRequested);
        r := Evaluation(v.0, isTrusted, context.userRequested, None, v.1, risk);
      } else {
        var v := RiskVerdict(risk);
        r := Evaluation(v.0, isTrusted, false, None, v.1, risk);
      }
    }

    /** `evaluate_command`: the session lookup and the risk analysis, then the
      verdict. */
    method EvaluateCommand(search: Search, command: string, sessionId: Option<string>, sessionFile: Option<SessionFile>)
      returns (r: Evaluation)
      ensures r == Evaluate(search, trustedSessions, threatIntel, command, sessionId, sessionFile)
    {
      var isTrusted := LookUpSession(sessionId);
      var risk := AnalyzeCommandRisk(search, command);
      r := Decide(search, command, isTrusted, risk, sessionFile);
    }
  }

  /** Trusting then untrusting a session that was not trusted before leaves the
      ledger as it was. */
  method TrustThenUntrust(e: TrustEngine, sessionId: string)
    requires e.Valid() && sessionId !in e.trustedSessions
    modifies e
    ensures e.Valid() && e.trustedSessions == old(e.trustedSessions)
  {
    e.TrustSession(sessionId);
    assert IsTrustedIn(e.trustedSessions, sessionId) by {
      TrustedAfterTrust(old(e.trustedSessions), sessionId, sessionId);
    }
    e.UntrustSession(sessionId);
  }
}
