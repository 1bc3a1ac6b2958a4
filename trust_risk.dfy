/** Risk analysis of a shell command without session context: the command's
    base word is looked up in tables of safe, network, system and interpreter
    commands, the text is searched for dangerous patterns, and a risk level and
    summary are derived from what was found. */
module TrustRisk {
  import opened Text

  datatype RiskLevel = Minimal | Low | Medium | High

  /** The level's name, as reported in `risk_level`. */
  function RiskLevelName(l: RiskLevel): string {
    match l
    case Minimal => "minimal"
    case Low => "low"
    case Medium => "medium"
    case High => "high"
  }

  datatype RiskProfile = RiskProfile(
    level: RiskLevel,
    factors: seq<string>,
    capabilities: seq<string>,
    summary: string,
    baseCommand: string)

  datatype DangerousPattern = DangerousPattern(pattern: string, reason: string)

  const NetworkFactor := "Network capability"
  const SystemFactor := "System modification capability"

  const PipeToShellReason := "Pipe to shell - potential code execution"
  const DeviceWriteReason := "Write to device - potential system damage"
  const EtcWriteReason := "Write to /etc - system config modification"
  const RootDeleteReason := "Recursive force delete from root"
  const ForkBombReason := "Fork bomb pattern"
  const Base64Reason := "Base64 decode - potential obfuscation"
  const EvalReason := "Eval with expression - code execution"
  const TcpReason := "Bash TCP redirection"
  const UdpReason := "Bash UDP redirection"

  /** Network-capable commands: name and description. */
  function NetworkCommand(base: string): Option<(string, string)> {
    match base
    case "telnet" => Some(("Network connection tool", "Can connect to remote hosts, unencrypted"))
    case "nc" => Some(("Netcat", "Powerful network tool, can create reverse shells"))
    case "ncat" => Some(("Ncat", "Enhanced netcat, can create reverse shells"))
    case "netcat" => Some(("Netcat", "Powerful network tool, can create reverse shells"))
    case "curl" => Some(("HTTP client", "Downloads content from URLs"))
    case "wget" => Some(("HTTP client", "Downloads files from URLs"))
    case "ssh" => Some(("Secure shell", "Remote access to systems"))
    case "scp" => Some(("Secure copy", "Transfers files over SSH"))
    case "rsync" => Some(("Remote sync", "Syncs files, can be remote"))
    case "ftp" => Some(("FTP client", "Unencrypted file transfer"))
    case "sftp" => Some(("SFTP client", "Encrypted file transfer"))
    case "nmap" => Some(("Network scanner", "Scans networks and ports"))
    case "ping" => Some(("Network ping", "Tests network connectivity"))
    case "traceroute" => Some(("Network trace", "Shows network path"))
    case "dig" => Some(("DNS lookup", "Queries DNS records"))
    case "nslookup" => Some(("DNS lookup", "Queries DNS records"))
    case "host" => Some(("DNS lookup", "Queries DNS records"))
    case _ => None
  }

  /** System-modification commands. */
  function SystemCommand(base: string): Option<(string, string)> {
    match base
    case "rm" => Some(("Remove files", "Deletes files/directories"))
    case "dd" => Some(("Disk dump", "Low-level disk operations"))
    case "mkfs" => Some(("Make filesystem", "Formats disks"))
    case "fdisk" => Some(("Disk partition", "Modifies partitions"))
    case "chmod" => Some(("Change permissions", "Modifies file permissions"))
    case "chown" => Some(("Change owner", "Modifies file ownership"))
    case "sudo" => Some(("Superuser do", "Runs with elevated privileges"))
    case "su" => Some(("Switch user", "Changes user context"))
    case "passwd" => Some(("Change password", "Modifies user passwords"))
    case "useradd" => Some(("Add user", "Creates new users"))
    case "userdel" => Some(("Delete user", "Removes users"))
    case "crontab" => Some(("Cron table", "Schedules recurring tasks"))
    case "systemctl" => Some(("System control", "Manages system services"))
    case "service" => Some(("Service manager", "Controls services"))
    case "kill" => Some(("Kill process", "Terminates processes"))
    case "pkill" => Some(("Kill by name", "Terminates processes by name"))
    case _ => None
  }

  /** Shell and interpreter commands. */
  function ExecCommand(base: string): Option<(string, string)> {
    match base
    case "bash" => Some(("Bash shell", "Command interpreter"))
    case "sh" => Some(("Shell", "Command interpreter"))
    case "zsh" => Some(("Zsh shell", "Command interpreter"))
    case "python" => Some(("Python", "Script interpreter"))
    case "python3" => Some(("Python 3", "Script interpreter"))
    case "perl" => Some(("Perl", "Script interpreter"))
    case "ruby" => Some(("Ruby", "Script interpreter"))
    case "node" => Some(("Node.js", "JavaScript runtime"))
    case "eval" => Some(("Eval", "Evaluates code"))
    case "exec" => Some(("Exec", "Executes commands"))
    case "source" => Some(("Source", "Executes script in current shell"))
    case _ => None
  }

  /** Read-only, informational commands. */
  function SafeCommand(base: string): Option<string> {
    match base
    case "whoami" => Some("Shows current username")
    case "id" => Some("Shows user/group IDs")
    case "pwd" => Some("Shows current directory")
    case "ls" => Some("Lists directory contents")
    case "cat" => Some("Displays file contents")
    case "head" => Some("Shows first lines of file")
    case "tail" => Some("Shows last lines of file")
    case "less" => Some("File pager")
    case "more" => Some("File pager")
    case "echo" => Some("Prints text")
    case "date" => Some("Shows date/time")
    case "cal" => Some("Shows calendar")
    case "uptime" => Some("Shows system uptime")
    case "uname" => Some("Shows system info")
    case "hostname" => Some("Shows hostname")
    case "env" => Some("Shows environment variables")
    case "printenv" => Some("Shows environment variables")
    case "which" => Some("Shows command path")
    case "whereis" => Some("Locates command")
    case "type" => Some("Shows command type")
    case "file" => Some("Shows file type")
    case "wc" => Some("Word/line count")
    case "sort" => Some("Sorts text")
    case "uniq" => Some("Filters duplicates")
    case "grep" => Some("Searches text patterns")
    case "find" => Some("Finds files")
    case "locate" => Some("Locates files")
    case "df" => Some("Shows disk usage")
    case "du" => Some("Shows directory size")
    case "free" => Some("Shows memory usage")
    case "top" => Some("Shows processes")
    case "htop" => Some("Shows processes (interactive)")
    case "ps" => Some("Lists processes")
    case "man" => Some("Shows manual pages")
    case "help" => Some("Shows help")
    case "history" => Some("Shows command history")
    case "clear" => Some("Clears terminal")
    case "true" => Some("Returns success")
    case "false" => Some("Returns failure")
    case "test" => Some("Evaluates conditions")
    case "cd" => Some("Changes directory")
    case "mkdir" => Some("Creates directory")
    case "touch" => Some("Creates empty file")
    case "cp" => Some("Copies files")
    case "mv" => Some("Moves files")
    case _ => None
  }

  /** The dangerous-pattern table, in its declared order. */
  const DangerousPatterns: seq<DangerousPattern> := [
    DangerousPattern(@"\|.*sh\b", PipeToShellReason),
    DangerousPattern(@">\s*/dev/", DeviceWriteReason),
    DangerousPattern(@">\s*/etc/", EtcWriteReason),
    DangerousPattern(@"rm\s+-rf\s+/", RootDeleteReason),
    DangerousPattern(@":\(\)\{.*\}", ForkBombReason),
    DangerousPattern(@"base64\s+-d", Base64Reason),
    DangerousPattern(@"eval\s*\(", EvalReason),
    DangerousPattern(@"/dev/tcp/", TcpReason),
    DangerousPattern(@"/dev/udp/", UdpReason)
  ]


  /** The pattern fires on the lower-cased, stripped command text. */
  predicate FiresOn(search: Search, p: DangerousPattern, text: string) {
    search(p.pattern, text)
  }

  /** The reasons of the patterns in `pats` that fire, in order. */
  function PatternFactors(search: Search, text: string, pats: seq<DangerousPattern>): (r: seq<string>)
    ensures |r| <= |pats|
  {
    if pats == [] then []
    else
      var last := pats[|pats| - 1];
      PatternFactors(search, text, pats[..|pats| - 1]) + (if FiresOn(search, last, text) then [last.reason] else [])
  }

  /** The capabilities a base command brings, network before system before execution. */
  function CapabilitiesOf(base: string): seq<string> {
    (match NetworkCommand(base) case Some(d) => ["Network: " + d.0 + " - " + d.1] case None => [])
    + (match SystemCommand(base) case Some(d) => ["System: " + d.0 + " - " + d.1] case None => [])
    + (match ExecCommand(base) case Some(d) => ["Execution: " + d.0 + " - " + d.1] case None => [])
  }

  /** The risk factors a base command brings; interpreters bring none. */
  function CommandFactors(base: string): seq<string> {
    (if NetworkCommand(base).Some? then [NetworkFactor] else [])
    + (if SystemCommand(base).Some? then [SystemFactor] else [])
  }

  /** A factor whose lower-cased text mentions a shell, a fork bomb or the root. */
  predicate HighWord(f: string) {
    var l := Lower(f);
    Contains(l, "shell") || Contains(l, "fork bomb") || Contains(l, "root")
  }

  /** `'System modification' in str(risk_factors)`. The factor texts hold no
      quote, backslash or comma, so the rendered list contains the phrase exactly
      when one of its elements does. */
  predicate MentionsSystemModification(f: string) {
    Contains(f, "System modification")
  }

  function LevelOf(factors: seq<string>, capabilities: seq<string>): RiskLevel {
    if exists f :: f in factors && HighWord(f) then High
    else if |factors| >= 2 || exists f :: f in factors && MentionsSystemModification(f) then Medium
    else if factors != [] then Low
    else if capabilities != [] then Low
    else Minimal
  }

  /** The summary line; the fourth branch of the source ("Unable to determine
      risk profile") is unreachable, since the first three cover every case. */
  function SummaryOf(base: string, factors: seq<string>, capabilities: seq<string>): string {
    if capabilities == [] && factors == [] then "Command '" + base + "' - no specific risk indicators found"
    else if factors == [] then capabilities[0]
    else "Risk factors: " + Join(", ", Take(factors, 3))
  }

  /** The text every check looks at: `command.lower().strip()`. */
  function RiskText(command: string): string {
    Strip(Lower(command))
  }

  /** The base command: the first word of the text, or "" when there is none. */
  function BaseOf(command: string): string {
    FirstTokenOr(RiskText(command), "")
  }

  /** The risk profile `analyze_command_risk` returns. */
  function Risk(search: Search, command: string): RiskProfile {
    var text := RiskText(command);
    var base := BaseOf(command);
    match SafeCommand(base)
    case Some(d) => RiskProfile(Minimal, [], ["Safe: " + d], d, base)
    case None =>
      var caps := CapabilitiesOf(base);
      var factors := CommandFactors(base) + PatternFactors(search, text, DangerousPatterns);
      RiskProfile(LevelOf(factors, caps), factors, caps, SummaryOf(base, factors, caps), base)
  }

  /** One pass over the dangerous-pattern table, collecting the reasons of the
      patterns that fire on `text`, in table order. */
  method CollectPatternFactors(search: Search, text: string) returns (factors: seq<string>)
    ensures factors == PatternFactors(search, text, DangerousPatterns)
  {
    factors := [];
    var k := 0;
    while k < |DangerousPatterns|
      invariant 0 <= k <= |DangerousPatterns|
      invariant factors == PatternFactors(search, text, DangerousPatterns[..k])
    {
      assert DangerousPatterns[..k + 1][..k] == DangerousPatterns[..k];
      if search(DangerousPatterns[k].pattern, text) {
        factors := factors + [DangerousPatterns[k].reason];
      }
      k := k + 1;
    }
    assert DangerousPatterns[..k] == DangerousPatterns;
  }

  /** `analyze_command_risk`: the safe-command shortcut, the capability lookups,
      then the pattern pass. */
  method AnalyzeCommandRisk(search: Search, command: string) returns (r: RiskProfile)
    ensures r == Risk(search, command)
  {
    var text := Strip(Lower(command));
    var parts := Split(text);
    var base := if parts == [] then "" else parts[0];
    var safe := SafeCommand(base);
    if safe.Some? {
      return RiskProfile(Minimal, [], ["Safe: " + safe.value], safe.value, base);
    }
    var capabilities := CapabilitiesOf(base);
    var found := CollectPatternFactors(search, text);
    var factors := CommandFactors(base) + found;
    r := RiskProfile(LevelOf(factors, capabilities), factors, capabilities,
                     SummaryOf(base, factors, capabilities), base);
  }

  // ------------------------------------------------------------ properties

  /** A reason is among the collected factors exactly when its pattern fires. */
  lemma {:induction false} PatternFactorsMembers(search: Search, text: string, pats: seq<DangerousPattern>, x: string)
    ensures x in PatternFactors(search, text, pats) <==>
            exists k :: 0 <= k < |pats| && FiresOn(search, pats[k], text) && x == pats[k].reason
  {
    if pats != [] {
      var init := pats[..|pats| - 1];
      PatternFactorsMembers(search, text, init, x);
      assert forall k :: 0 <= k < |init| ==> init[k] == pats[k];
    }
  }

  /** Which summary keywords the network factor contains. Each lemma here decides
      `Contains` on one pair of string literals; they are kept apart so that
      each proof stays small. */
  lemma NetworkFactorNoShell()
    ensures !Contains(Lower(NetworkFactor), "shell")
  {
    assert 's' !in NetworkFactor;
    assert 'S' !in NetworkFactor;
    NotContainsLoweredChar(NetworkFactor, "shell", 0);
  }

  lemma NetworkFactorNoForkBomb()
    ensures !Contains(Lower(NetworkFactor), "fork bomb")
  {
    assert 'f' !in NetworkFactor;
    assert 'F' !in NetworkFactor;
    NotContainsLoweredChar(NetworkFactor, "fork bomb", 0);
  }

  lemma NetworkFactorNoRoot()
    ensures !Contains(Lower(NetworkFactor), "root")
  {
    NotContainsLoweredPair(NetworkFactor, "root", 0);
  }

  lemma NetworkFactorNoSystemModification()
    ensures !Contains(NetworkFactor, "System modification")
  {
    NotContainsChar(NetworkFactor, "System modification", 0);
  }

  lemma ClassifyNetworkFactor()
    ensures !HighWord(NetworkFactor) && !MentionsSystemModification(NetworkFactor)
  {
    NetworkFactorNoShell();
    NetworkFactorNoForkBomb();
    NetworkFactorNoRoot();
    NetworkFactorNoSystemModification();
  }

  /** Which summary keywords the system factor contains. Each lemma here decides
      `Contains` on one pair of string literals; they are kept apart so that
      each proof stays small. */
  lemma SystemFactorNoShell()
    ensures !Contains(Lower(SystemFactor), "shell")
  {
    assert 'h' !in SystemFactor;
    assert 'H' !in SystemFactor;
    NotContainsLoweredChar(SystemFactor, "shell", 1);
  }

  lemma SystemFactorNoForkBomb()
    ensures !Contains(Lower(SystemFactor), "fork bomb")
  {
    assert 'r' !in SystemFactor;
    assert 'R' !in SystemFactor;
    NotContainsLoweredChar(SystemFactor, "fork bomb", 2);
  }

  lemma SystemFactorNoRoot()
    ensures !Contains(Lower(SystemFactor), "root")
  {
    assert 'r' !in SystemFactor;
    assert 'R' !in SystemFactor;
    NotContainsLoweredChar(SystemFactor, "root", 0);
  }

  lemma SystemFactorHasSystemModification()
    ensures Contains(SystemFactor, "System modification")
  {
    ContainsAt(SystemFactor, "System modification", 0);
  }

  lemma ClassifySystemFactor()
    ensures !HighWord(SystemFactor) && MentionsSystemModification(SystemFactor)
  {
    SystemFactorNoShell();
    SystemFactorNoForkBomb();
    SystemFactorNoRoot();
    SystemFactorHasSystemModification();
  }

  /** Which summary keywords the pipe-to-shell reason contains. Each lemma here decides
      `Contains` on one pair of string literals; they are kept apart so that
      each proof stays small. */
  lemma PipeToShellReasonHasShell()
    ensures Contains(Lower(PipeToShellReason), "shell")
  {
    ContainsLowered(PipeToShellReason, "shell", 8);
  }

  lemma PipeToShellReasonNoSystemModification()
    ensures !Contains(PipeToShellReason, "System modification")
  {
    NotContainsChar(PipeToShellReason, "System modification", 0);
  }

  lemma ClassifyPipeToShellReason()
    ensures HighWord(PipeToShellReason) && !MentionsSystemModification(PipeToShellReason)
  {
    PipeToShellReasonHasShell();
    PipeToShellReasonNoSystemModification();
  }

  /** Which summary keywords the device-write reason contains. Each lemma here decides
      `Contains` on one pair of string literals; they are kept apart so that
      each proof stays small. */
  lemma DeviceWriteReasonNoShell()
    ensures !Contains(Lower(DeviceWriteReason), "shell")
  {
    assert 'h' !in DeviceWriteReason;
    assert 'H' !in DeviceWriteReason;
    NotContainsLoweredChar(DeviceWriteReason, "shell", 1);
  }

  lemma DeviceWriteReasonNoForkBomb()
    ensures !Contains(Lower(DeviceWriteReason), "fork bomb")
  {
    assert 'k' !in DeviceWriteReason;
    assert 'K' !in DeviceWriteReason;
    NotContainsLoweredChar(DeviceWriteReason, "fork bomb", 3);
  }

  lemma DeviceWriteReasonNoRoot()
    ensures !Contains(Lower(DeviceWriteReason), "root")
  {
    NotContainsLoweredPair(DeviceWriteReason, "root", 0);
  }

  lemma DeviceWriteReasonNoSystemModification()
    ensures !Contains(DeviceWriteReason, "System modification")
  {
    NotContainsChar(DeviceWriteReason, "System modification", 0);
  }

  lemma ClassifyDeviceWriteReason()
    ensures !HighWord(DeviceWriteReason) && !MentionsSystemModification(DeviceWriteReason)
  {
    DeviceWriteReasonNoShell();
    DeviceWriteReasonNoForkBomb();
    DeviceWriteReasonNoRoot();
    DeviceWriteReasonNoSystemModification();
  }

  /** Which summary keywords the /etc write reason contains. Each lemma here decides
      `Contains` on one pair of string literals; they are kept apart so that
      each proof stays small. */
  lemma EtcWriteReasonNoShell()
    ensures !Contains(Lower(EtcWriteReason), "shell")
  {
    assert 'h' !in EtcWriteReason;
    assert 'H' !in EtcWriteReason;
    NotContainsLoweredChar(EtcWriteReason, "shell", 1);
  }

  lemma EtcWriteReasonNoForkBomb()
    ensures !Contains(Lower(EtcWriteReason), "fork bomb")
  {
    assert 'k' !in EtcWriteReason;
    assert 'K' !in EtcWriteReason;
    NotContainsLoweredChar(EtcWriteReason, "fork bomb", 3);
  }

  lemma EtcWriteReasonNoRoot()
    ensures !Contains(Lower(EtcWriteReason), "root")
  {
    NotContainsLoweredPair(EtcWriteReason, "root", 0);
  }

  lemma EtcWriteReasonNoSystemModification()
    ensures !Contains(EtcWriteReason, "System modification")
  {
    NotContainsChar(EtcWriteReason, "System modification", 0);
  }

  lemma ClassifyEtcWriteReason()
    ensures !HighWord(EtcWriteReason) && !MentionsSystemModification(EtcWriteReason)
  {
    EtcWriteReasonNoShell();
    EtcWriteReasonNoForkBomb();
    EtcWriteReasonNoRoot();
    EtcWriteReasonNoSystemModification();
  }

  /** Which summary keywords the root-delete reason contains. Each lemma here decides
      `Contains` on one pair of string literals; they are kept apart so that
      each proof stays small. */
  lemma RootDeleteReasonHasRoot()
    ensures Contains(Lower(RootDeleteReason), "root")
  {
    ContainsLowered(RootDeleteReason, "root", 28);
  }

  lemma RootDeleteReasonNoSystemModification()
    ensures !Contains(RootDeleteReason, "System modification")
  {
    NotContainsChar(RootDeleteReason, "System modification", 0);
  }

  lemma ClassifyRootDeleteReason()
    ensures HighWord(RootDeleteReason) && !MentionsSystemModification(RootDeleteReason)
  {
    RootDeleteReasonHasRoot();
    RootDeleteReasonNoSystemModification();
  }

  /** Which summary keywords the fork-bomb reason contains. Each lemma here decides
      `Contains` on one pair of string literals; they are kept apart so that
      each proof stays small. */
  lemma ForkBombReasonHasForkBomb()
    ensures Contains(Lower(ForkBombReason), "fork bomb")
  {
    ContainsLowered(ForkBombReason, "fork bomb", 0);
  }

  lemma ForkBombReasonNoSystemModification()
    ensures !Contains(ForkBombReason, "System modification")
  {
    NotContainsChar(ForkBombReason, "System modification", 0);
  }

  lemma ClassifyForkBombReason()
    ensures HighWord(ForkBombReason) && !MentionsSystemModification(ForkBombReason)
  {
    ForkBombReasonHasForkBomb();
    ForkBombReasonNoSystemModification();
  }

  /** Which summary keywords the base64 reason contains. Each lemma here decides
      `Contains` on one pair of string literals; they are kept apart so that
      each proof stays small. */
  lemma Base64ReasonNoShell()
    ensures !Contains(Lower(Base64Reason), "shell")
  {
    assert 'h' !in Base64Reason;
    assert 'H' !in Base64Reason;
    NotContainsLoweredChar(Base64Reason, "shell", 1);
  }

  lemma Base64ReasonNoForkBomb()
    ensures !Contains(Lower(Base64Reason), "fork bomb")
  {
    assert 'r' !in Base64Reason;
    assert 'R' !in Base64Reason;
    NotContainsLoweredChar(Base64Reason, "fork bomb", 2);
  }

  lemma Base64ReasonNoRoot()
    ensures !Contains(Lower(Base64Reason), "root")
  {
    assert 'r' !in Base64Reason;
    assert 'R' !in Base64Reason;
    NotContainsLoweredChar(Base64Reason, "root", 0);
  }

  lemma Base64ReasonNoSystemModification()
    ensures !Contains(Base64Reason, "System modification")
  {
    NotContainsChar(Base64Reason, "System modification", 0);
  }

  lemma ClassifyBase64Reason()
    ensures !HighWord(Base64Reason) && !MentionsSystemModification(Base64Reason)
  {
    Base64ReasonNoShell();
    Base64ReasonNoForkBomb();
    Base64ReasonNoRoot();
    Base64ReasonNoSystemModification();
  }

  /** Which summary keywords the eval reason contains. Each lemma here decides
      `Contains` on one pair of string literals; they are kept apart so that
      each proof stays small. */
  lemma EvalReasonNoShell()
    ensures !Contains(Lower(EvalReason), "shell")
  {
    NotContainsLoweredPair(EvalReason, "shell", 0);
  }

  lemma EvalReasonNoForkBomb()
    ensures !Contains(Lower(EvalReason), "fork bomb")
  {
    assert 'k' !in EvalReason;
    assert 'K' !in EvalReason;
    NotContainsLoweredChar(EvalReason, "fork bomb", 3);
  }

  lemma EvalReasonNoRoot()
    ensures !Contains(Lower(EvalReason), "root")
  {
    NotContainsLoweredPair(EvalReason, "root", 0);
  }

  lemma EvalReasonNoSystemModification()
    ensures !Contains(EvalReason, "System modification")
  {
    NotContainsChar(EvalReason, "System modification", 0);
  }

  lemma ClassifyEvalReason()
    ensures !HighWord(EvalReason) && !MentionsSystemModification(EvalReason)
  {
    EvalReasonNoShell();
    EvalReasonNoForkBomb();
    EvalReasonNoRoot();
    EvalReasonNoSystemModification();
  }

  /** Which summary keywords the /dev/tcp reason contains. Each lemma here decides
      `Contains` on one pair of string literals; they are kept apart so that
      each proof stays small. */
  lemma TcpReasonNoShell()
    ensures !Contains(Lower(TcpReason), "shell")
  {
    assert 'l' !in TcpReason;
    assert 'L' !in TcpReason;
    NotContainsLoweredChar(TcpReason, "shell", 3);
  }

  lemma TcpReasonNoForkBomb()
    ensures !Contains(Lower(TcpReason), "fork bomb")
  {
    assert 'f' !in TcpReason;
    assert 'F' !in TcpReason;
    NotContainsLoweredChar(TcpReason, "fork bomb", 0);
  }

  lemma TcpReasonNoRoot()
    ensures !Contains(Lower(TcpReason), "root")
  {
    NotContainsLoweredPair(TcpReason, "root", 0);
  }

  lemma TcpReasonNoSystemModification()
    ensures !Contains(TcpReason, "System modification")
  {
    NotContainsChar(TcpReason, "System modification", 0);
  }

  lemma ClassifyTcpReason()
    ensures !HighWord(TcpReason) && !MentionsSystemModification(TcpReason)
  {
    TcpReasonNoShell();
    TcpReasonNoForkBomb();
    TcpReasonNoRoot();
    TcpReasonNoSystemModification();
  }

  /** Which summary keywords the /dev/udp reason contains. Each lemma here decides
      `Contains` on one pair of string literals; they are kept apart so that
      each proof stays small. */
  lemma UdpReasonNoShell()
    ensures !Contains(Lower(UdpReason), "shell")
  {
    assert 'l' !in UdpReason;
    assert 'L' !in UdpReason;
    NotContainsLoweredChar(UdpReason, "shell", 3);
  }

  lemma UdpReasonNoForkBomb()
    ensures !Contains(Lower(UdpReason), "fork bomb")
  {
    assert 'f' !in UdpReason;
    assert 'F' !in UdpReason;
    NotContainsLoweredChar(UdpReason, "fork bomb", 0);
  }

  lemma UdpReasonNoRoot()
    ensures !Contains(Lower(UdpReason), "root")
  {
    NotContainsLoweredPair(UdpReason, "root", 0);
  }

  lemma UdpReasonNoSystemModification()
    ensures !Contains(UdpReason, "System modification")
  {
    NotContainsChar(UdpReason, "System modification", 0);
  }

  lemma ClassifyUdpReason()
    ensures !HighWord(UdpReason) && !MentionsSystemModification(UdpReason)
  {
    UdpReasonNoShell();
    UdpReasonNoForkBomb();
    UdpReasonNoRoot();
    UdpReasonNoSystemModification();
  }

  /** Of the nine dangerous-pattern reasons exactly the pipe-to-shell, root-delete
      and fork-bomb ones count as high, and none mentions system modification. */
  lemma ReasonsClassified()
    ensures forall k :: 0 <= k < |DangerousPatterns| ==>
              (HighWord(DangerousPatterns[k].reason) <==> k == 0 || k == 3 || k == 4) &&
              !MentionsSystemModification(DangerousPatterns[k].reason)
  {
    ClassifyPipeToShellReason();
    ClassifyDeviceWriteReason();
    ClassifyEtcWriteReason();
    ClassifyRootDeleteReason();
    ClassifyForkBombReason();
    ClassifyBase64Reason();
    ClassifyEvalReason();
    ClassifyTcpReason();
    ClassifyUdpReason();
  }

  /** A safe base command is minimal risk whatever follows it, before any
      pattern is looked at. */
  lemma RiskOfSafeBase(search: Search, command: string)
    requires SafeCommand(BaseOf(command)).Some?
    ensures var r := Risk(search, command);
            r.level == Minimal && r.factors == [] && r.summary == SafeCommand(BaseOf(command)).value &&
            r.capabilities == ["Safe: " + SafeCommand(BaseOf(command)).value]
  {
  }

  /** Every factor a base command brings is the network or the system one. */
  predicate BaseFactors(cf: seq<string>) {
    forall f :: f in cf ==> f == NetworkFactor || f == SystemFactor
  }

  lemma CommandFactorsShape(base: string)
    ensures BaseFactors(CommandFactors(base))
    ensures SystemFactor in CommandFactors(base) <==> SystemCommand(base).Some?
  {
    var cf := CommandFactors(base);
    if SystemCommand(base).None? {
      assert NetworkFactor != SystemFactor by { assert NetworkFactor[0] != SystemFactor[0]; }
    }
  }

  /** With base-command factors `cf` in front of the pattern reasons, the level
      is high exactly when the pipe-to-shell, root-delete or fork-bomb pattern fires. */
  lemma LevelHighIff(search: Search, text: string, cf: seq<string>, caps: seq<string>)
    requires BaseFactors(cf)
    ensures LevelOf(cf + PatternFactors(search, text, DangerousPatterns), caps) == High <==>
            FiresOn(search, DangerousPatterns[0], text) ||
            FiresOn(search, DangerousPatterns[3], text) ||
            FiresOn(search, DangerousPatterns[4], text)
  {
    var pf := PatternFactors(search, text, DangerousPatterns);
    var factors := cf + pf;
    ReasonsClassified();
    ClassifyNetworkFactor();
    ClassifySystemFactor();
    if exists f :: f in factors && HighWord(f) {
      var f :| f in factors && HighWord(f);
      assert f in pf;
      PatternFactorsMembers(search, text, DangerousPatterns, f);
    }
    forall k | k in {0, 3, 4} && FiresOn(search, DangerousPatterns[k], text)
      ensures DangerousPatterns[k].reason in factors
    {
      PatternFactorsMembers(search, text, DangerousPatterns, DangerousPatterns[k].reason);
    }
  }

  /** Below high, the level is medium exactly when two or more factors were found
      or the system factor is among them. */
  lemma LevelMediumIff(search: Search, text: string, cf: seq<string>, caps: seq<string>)
    requires BaseFactors(cf)
    requires LevelOf(cf + PatternFactors(search, text, DangerousPatterns), caps) != High
    ensures var factors := cf + PatternFactors(search, text, DangerousPatterns);
            LevelOf(factors, caps) == Medium <==> |factors| >= 2 || SystemFactor in cf
  {
    var pf := PatternFactors(search, text, DangerousPatterns);
    var factors := cf + pf;
    ReasonsClassified();
    ClassifyNetworkFactor();
    ClassifySystemFactor();
    if exists f :: f in factors && MentionsSystemModification(f) {
      var f :| f in factors && MentionsSystemModification(f);
      if f in pf {
        PatternFactorsMembers(search, text, DangerousPatterns, f);
      }
    }
  }

  /** For any other command the level is high exactly when the pipe-to-shell,
      delete-from-root or fork-bomb pattern fires. */
  lemma RiskHighIff(search: Search, command: string)
    requires SafeCommand(BaseOf(command)).None?
    ensures Risk(search, command).level == High <==>
            FiresOn(search, DangerousPatterns[0], RiskText(command)) ||
            FiresOn(search, DangerousPatterns[3], RiskText(command)) ||
            FiresOn(search, DangerousPatterns[4], RiskText(command))
  {
    var base := BaseOf(command);
    CommandFactorsShape(base);
    LevelHighIff(search, RiskText(command), CommandFactors(base), CapabilitiesOf(base));
  }

  // ------------------------------------------------------------ `rm -rf /`

  /** `rm\s+-rf\s+/` matches somewhere in `t`. */
  ghost predicate RootDeleteIn(t: string) {
    exists i, j, a, c, b ::
      0 <= i && j == i + 2 && j < a && c == a + 3 && c < b < |t| &&
      t[i..j] == "rm" && AllSpace(t[j..a]) && t[a..c] == "-rf" && AllSpace(t[c..b]) && t[b] == '/'
  }

  /** The engine honours a dangerous pattern when it agrees with a hand-coded
      language on every text. */
  ghost predicate HonoursPattern(search: Search, p: DangerousPattern, lang: string -> bool) {
    forall t :: search(p.pattern, t) == lang(t)
  }

  lemma RootDeleteAt(t: string, i: nat, a: nat, b: nat)
    requires i + 2 < a && a + 3 < b < |t| && t[i..i + 2] == "rm" && AllSpace(t[i + 2..a])
    requires t[a..a + 3] == "-rf" && AllSpace(t[a + 3..b]) && t[b] == '/'
    ensures RootDeleteIn(t)
  {
  }

  /** The text of `rm -rf /` is itself and its base command is `rm`. */
  lemma RootDeleteText()
    ensures RiskText("rm -rf /") == "rm -rf /" && BaseOf("rm -rf /") == "rm"
  {
    var t := "rm -rf /";
    RootDeleteLowered();
    StripUnchanged(t);
    FirstTokenIs(t, 2);
  }

  lemma RootDeleteLowered()
    ensures Lower("rm -rf /") == "rm -rf /"
  {
  }

  /** `rm -rf /` is in the root-delete language. */
  lemma RootDeleteMatches()
    ensures RootDeleteIn("rm -rf /")
  {
    var t := "rm -rf /";
    assert t[0..2] == "rm" && t[3..6] == "-rf" && t[7] == '/';
    assert AllSpace(t[2..3]) && AllSpace(t[6..7]);
    RootDeleteAt(t, 0, 3, 7);
  }

  lemma RmNotSafe()
    ensures SafeCommand("rm").None?
  {
  }

  /** Any other command on which the root-delete pattern fires is high risk,
      with the root-delete reason among its factors. */
  lemma RootDeleteFactor(search: Search, command: string)
    requires SafeCommand(BaseOf(command)).None?
    requires FiresOn(search, DangerousPatterns[3], RiskText(command))
    ensures Risk(search, command).level == High
    ensures RootDeleteReason in Risk(search, command).factors
  {
    RiskHighIff(search, command);
    RootDeleteEntry();
    PatternFactorsMembers(search, RiskText(command), DangerousPatterns, RootDeleteReason);
  }

  lemma RootDeleteEntry()
    ensures DangerousPatterns[3].reason == RootDeleteReason
  {
  }

  /** When the engine honours the root-delete pattern, `rm -rf /` is high risk
      and the root-delete reason is among its factors. */
  lemma RootDeleteIsHigh(search: Search)
    requires HonoursPattern(search, DangerousPatterns[3], RootDeleteIn)
    ensures Risk(search, "rm -rf /").level == High
    ensures RootDeleteReason in Risk(search, "rm -rf /").factors
  {
    RootDeleteText();
    RootDeleteMatches();
    RmNotSafe();
    RootDeleteFactor(search, "rm -rf /");
  }

  /** Below high, the level is medium exactly when two or more factors were found
      or the base command modifies the system. */
  lemma RiskMediumIff(search: Search, command: string)
    requires SafeCommand(BaseOf(command)).None?
    requires Risk(search, command).level != High
    ensures Risk(search, command).level == Medium <==>
            |Risk(search, command).factors| >= 2 || SystemCommand(BaseOf(command)).Some?
  {
    var base := BaseOf(command);
    CommandFactorsShape(base);
    LevelMediumIff(search, RiskText(command), CommandFactors(base), CapabilitiesOf(base));
  }

  /** Below medium, a command with no factor and no capability is minimal, any
      other is low. */
  lemma RiskMinimalIff(search: Search, command: string)
    requires SafeCommand(BaseOf(command)).None?
    ensures Risk(search, command).level == Minimal <==>
            Risk(search, command).factors == [] && Risk(search, command).capabilities == []
  {
  }

  /** A system-modification command is at least medium risk. */
  lemma SystemCommandAtLeastMedium(search: Search, command: string)
    requires SafeCommand(BaseOf(command)).None? && SystemCommand(BaseOf(command)).Some?
    ensures Risk(search, command).level in {Medium, High}
  {
    if Risk(search, command).level != High {
      RiskMediumIff(search, command);
    }
  }

  /** Every factor is a base-command factor or a pattern reason, at most eleven in all. */
  lemma RiskFactorsBounded(search: Search, command: string)
    ensures |Risk(search, command).factors| <= 11
    ensures forall f :: f in Risk(search, command).factors ==>
              f == NetworkFactor || f == SystemFactor || exists k :: 0 <= k < |DangerousPatterns| && f == DangerousPatterns[k].reason
  {
    var text, base := RiskText(command), BaseOf(command);
    forall f | f in Risk(search, command).factors
      ensures f == NetworkFactor || f == SystemFactor || exists k :: 0 <= k < |DangerousPatterns| && f == DangerousPatterns[k].reason
    {
      if f !in CommandFactors(base) {
        PatternFactorsMembers(search, text, DangerousPatterns, f);
      }
    }
  }
}
