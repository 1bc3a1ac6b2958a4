/** Session context: the messages kept from a session transcript, and the
    "did the user ask for this" test that compares them with a command. */
module TrustContext {
  import opened Text

  /** The trust levels a verdict can carry, most to least trusted. */
  datatype TrustLevel = Trusted | Verified | Unverified | Suspicious | Malicious

  function TrustLevelName(l: TrustLevel): string {
    match l
    case Trusted => "trusted"
    case Verified => "verified"
    case Unverified => "unverified"
    case Suspicious => "suspicious"
    case Malicious => "malicious"
  }

  /** One element of a list-valued message content: its `type` and `text`. */
  datatype Part = Part(kind: string, text: string)

  /** A message's `content`: a string, a list of parts, or anything else. */
  datatype Content = TextContent(s: string) | PartsContent(parts: seq<Part>) | OtherContent

  /** A transcript line that parsed as a `message` entry, or any other line
      (another entry type, or one that fails to parse). */
  datatype Entry = MessageEntry(role: string, content: Content) | OtherEntry

  /** The session file: absent, or its lines in order. */
  datatype SessionFile = MissingFile | Transcript(lines: seq<Entry>)

  datatype Message = Message(role: string, content: string)

  datatype ContextReport = ContextReport(
    trustLevel: TrustLevel,
    userRequested: bool,
    contextMessages: seq<Message>,
    reasoning: string)

  const MaxEntries := 50
  const MaxContent := 500
  const MaxPartText := 200
  const MaxContextMessages := 10
  const MaxScanned := 20

  // ------------------------------------------------------------ messages

  /** The texts of the `text` parts, each cut to 200 characters. */
  function TextParts(parts: seq<Part>): (r: seq<string>)
    ensures |r| <= |parts|
    ensures forall k :: 0 <= k < |r| ==> |r[k]| <= MaxPartText
  {
    if parts == [] then []
    else (if parts[0].kind == "text" then [Take(parts[0].text, MaxPartText)] else [])
         + TextParts(parts[1..])
  }

  /** The message a transcript line contributes, if any, with its content cut
      to 500 characters; list contents are joined with single spaces first. */
  function MessageOf(e: Entry): (r: Option<Message>)
    ensures r.Some? <==> e.MessageEntry? && !e.content.OtherContent?
    ensures r.Some? ==> r.value.role == e.role && |r.value.content| <= MaxContent
    ensures r.Some? && e.content.TextContent? ==> r.value.content == Take(e.content.s, MaxContent)
  {
    match e
    case OtherEntry => None
    case MessageEntry(role, content) =>
      match content
      case TextContent(s) => Some(Message(role, Take(s, MaxContent)))
      case PartsContent(parts) => Some(Message(role, Take(Join(" ", TextParts(parts)), MaxContent)))
      case OtherContent => None
  }

  /** The messages of `lines`, in order. */
  function Messages(lines: seq<Entry>): (r: seq<Message>)
    ensures |r| <= |lines|
    ensures forall k :: 0 <= k < |r| ==> |r[k].content| <= MaxContent
  {
    if lines == [] then []
    else
      var last := lines[|lines| - 1];
      Messages(lines[..|lines| - 1]) + (if MessageOf(last).Some? then [MessageOf(last).value] else [])
  }

  /** A message is kept exactly when some line contributes it. */
  lemma {:induction false} MessagesMembers(lines: seq<Entry>, m: Message)
    ensures m in Messages(lines) <==> exists k :: 0 <= k < |lines| && MessageOf(lines[k]) == Some(m)
  {
    if lines != [] {
      var init := lines[..|lines| - 1];
      MessagesMembers(init, m);
      assert forall k :: 0 <= k < |init| ==> init[k] == lines[k];
      if exists k :: 0 <= k < |lines| && MessageOf(lines[k]) == Some(m) {
        var k :| 0 <= k < |lines| && MessageOf(lines[k]) == Some(m);
        if k < |init| {
          assert MessageOf(init[k]) == Some(m);
        }
      }
    }
  }

  /** The loop over the last 50 lines that keeps the message entries. */
  method CollectMessages(lines: seq<Entry>) returns (msgs: seq<Message>)
    ensures msgs == Messages(Last(lines, MaxEntries))
  {
    var window := Last(lines, MaxEntries);
    msgs := [];
    var k := 0;
    while k < |window|
      invariant 0 <= k <= |window|
      invariant msgs == Messages(window[..k])
    {
      assert window[..k + 1][..k] == window[..k];
      var m := MessageOf(window[k]);
      if m.Some? {
        msgs := msgs + [m.value];
      }
      k := k + 1;
    }
    assert window[..k] == window;
  }

  // ------------------------------------------------------------ requests

  /** The request markers; each must be followed by a whitespace character. */
  const RequestMarkers := ["run", "execute", "install", "setup", "create", "build", "start",
                           "download", "please", "can you", "could you", "would you"]

  /** The tool names looked for in both the message and the command. */
  const ToolNames := ["curl", "wget", "npm", "pip", "git"]

  /** Marker `m` occurs at `i` in `c` and is followed by whitespace. */
  predicate MarkerAt(c: string, m: string, i: nat) {
    i + |m| < |c| && m <= c[i..] && IsSpace(c[i + |m|])
  }

  predicate HasRequest(c: string) {
    exists m, i :: m in RequestMarkers && 0 <= i < |c| && MarkerAt(c, m, i)
  }

  predicate MentionsTool(s: string) {
    exists t :: t in ToolNames && Contains(s, t)
  }

  /** `set(re.findall(r'\b\w{4,}\b', s))`: the maximal word runs of at least
      four characters. */
  function Terms(s: string): (r: set<string>)
    ensures forall w :: w in r ==> |w| >= 4 && w in Words(s)
  {
    set w | w in Words(s) && |w| >= 4
  }

  /** One message asks for the command (lower-cased as `commandLower`): a user
      message with a request marker and two shared terms, or with a tool name
      when the command also names one. */
  predicate Requests(m: Message, commandLower: string) {
    m.role == "user" &&
    var c := Lower(m.content);
    (HasRequest(c) && |Terms(commandLower) * Terms(c)| >= 2) ||
    (MentionsTool(c) && MentionsTool(commandLower))
  }

  /** A newest-first scan of `xs` with an early return on the first element
      satisfying `p`. */
  function AnyFromEnd<T>(xs: seq<T>, p: T -> bool): bool {
    if xs == [] then false
    else p(xs[|xs| - 1]) || AnyFromEnd(xs[..|xs| - 1], p)
  }

  /** The scan succeeds exactly when some element satisfies `p`. */
  lemma {:induction false} AnyFromEndIff<T>(xs: seq<T>, p: T -> bool)
    ensures AnyFromEnd(xs, p) <==> exists k :: 0 <= k < |xs| && p(xs[k])
  {
    if xs != [] {
      var init := xs[..|xs| - 1];
      AnyFromEndIff(init, p);
      assert forall k :: 0 <= k < |init| ==> init[k] == xs[k];
      if exists k :: 0 <= k < |xs| && p(xs[k]) {
        var k :| 0 <= k < |xs| && p(xs[k]);
        if k < |init| {
          assert p(init[k]);
        }
      }
    }
  }

  /** `_check_user_request`: the newest-first scan over the last 20 messages. */
  function CheckUserRequest(msgs: seq<Message>, command: string): bool {
    var commandLower := Lower(command);
    AnyFromEnd(Last(msgs, MaxScanned), m => Requests(m, commandLower))
  }

  /** A user request is found exactly when one of the last 20 messages is a
      request for the command; messages from other roles never count. */
  lemma CheckUserRequestIff(msgs: seq<Message>, command: string)
    ensures CheckUserRequest(msgs, command) <==>
            exists k :: |msgs| - MaxScanned <= k < |msgs| && 0 <= k && Requests(msgs[k], Lower(command))
    ensures CheckUserRequest(msgs, command) ==>
            exists k :: 0 <= k < |msgs| && msgs[k].role == "user"
  {
    var w := Last(msgs, MaxScanned);
    var cl := Lower(command);
    AnyFromEndIff(w, m => Requests(m, cl));
    if CheckUserRequest(msgs, command) {
      var j :| 0 <= j < |w| && Requests(w[j], cl);
      assert w[j] == msgs[|msgs| - |w| + j];
    }
    if exists k :: |msgs| - MaxScanned <= k < |msgs| && 0 <= k && Requests(msgs[k], cl) {
      var k :| |msgs| - MaxScanned <= k < |msgs| && 0 <= k && Requests(msgs[k], cl);
      assert w[k - (|msgs| - |w|)] == msgs[k];
    }
  }

  lemma NpmInMessage()
    ensures MentionsTool(Lower("Please run npm install"))
  {
    var s := "Please run npm install";
    assert s[11] == 'n' && s[12] == 'p' && s[13] == 'm';
    ContainsLowered(s, "npm", 11);
    assert "npm" in ToolNames;
  }

  lemma NpmInCommand()
    ensures MentionsTool(Lower("npm install"))
  {
    var s := "npm install";
    assert s[0] == 'n' && s[1] == 'p' && s[2] == 'm';
    ContainsLowered(s, "npm", 0);
    assert "npm" in ToolNames;
  }

  /** A user asking to "Please run npm install" requests `npm install`. */
  lemma NpmInstallRequested()
    ensures CheckUserRequest([Message("user", "Please run npm install")], "npm install")
  {
    var m := Message("user", "Please run npm install");
    NpmInMessage();
    NpmInCommand();
    assert Requests(m, Lower("npm install"));
    assert Last([m], MaxScanned) == [m];
    AnyFromEndIff([m], (x: Message) => Requests(x, Lower("npm install")));
  }

  // ------------------------------------------------------------ the report

  /** The report `analyze_context` builds. */
  function Context(file: SessionFile, command: string): ContextReport {
    match file
    case MissingFile => ContextReport(Unverified, false, [], "Session file not found")
    case Transcript(lines) =>
      var msgs := Messages(Last(lines, MaxEntries));
      var requested := CheckUserRequest(msgs, command);
      ContextReport(
        if requested then Verified else Unverified,
        requested,
        Last(msgs, MaxContextMessages),
        if requested then "User message found requesting this action"
        else "No clear user request found for this action")
  }

  /** `analyze_context`: the message loop, then the request check. */
  method AnalyzeContext(file: SessionFile, command: string) returns (r: ContextReport)
    ensures r == Context(file, command)
  {
    if file.MissingFile? {
      return ContextReport(Unverified, false, [], "Session file not found");
    }
    var msgs := CollectMessages(file.lines);
    var requested := CheckUserRequest(msgs, command);
    r := ContextReport(Unverified, requested, Last(msgs, MaxContextMessages), "");
    if requested {
      r := r.(trustLevel := Verified, reasoning := "User message found requesting this action");
    } else {
      r := r.(reasoning := "No clear user request found for this action");
    }
  }

  /** The report is verified exactly when a request was found, never anything
      but verified or unverified, and carries at most ten messages of at most
      500 characters, all taken from the last 50 lines. */
  lemma ContextShape(file: SessionFile, command: string)
    ensures var r := Context(file, command);
            (r.trustLevel == Verified <==> r.userRequested) &&
            r.trustLevel in {Verified, Unverified} &&
            |r.contextMessages| <= MaxContextMessages &&
            (forall k :: 0 <= k < |r.contextMessages| ==> |r.contextMessages[k].content| <= MaxContent)
    ensures file.MissingFile? ==> !Context(file, command).userRequested
    ensures file.Transcript? ==>
              forall m :: m in Context(file, command).contextMessages ==>
                exists k :: 0 <= k < |Last(file.lines, MaxEntries)| && MessageOf(Last(file.lines, MaxEntries)[k]) == Some(m)
  {
    if file.Transcript? {
      var msgs := Messages(Last(file.lines, MaxEntries));
      forall m | m in Context(file, command).contextMessages
        ensures exists k :: 0 <= k < |Last(file.lines, MaxEntries)| && MessageOf(Last(file.lines, MaxEntries)[k]) == Some(m)
      {
        var ctx := Last(msgs, MaxContextMessages);
        var j :| 0 <= j < |ctx| && ctx[j] == m;
        assert m in msgs by { assert msgs[|msgs| - |ctx| + j] == m; }
        MessagesMembers(Last(file.lines, MaxEntries), m);
      }
    }
  }
}
