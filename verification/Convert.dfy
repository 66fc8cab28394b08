/** conversation/convert.go: a session's messages as one agent's model reads them. */
module Convert {
  import opened Text
  import opened Messages

  datatype Label = Label(name: string, mention: string)

  /** The reader: its name, whom it answers, the agents' labels, and the private tools of each. */
  datatype View = View(
    self: string,
    user: string,
    agents: map<string, Label>,
    private: set<string>)

  const MAX_OTHER_TOOL_INPUT := 500
  const MAX_OTHER_TOOL_RESULT := 1500
  const HIDDEN_INPUT := "{\"content\":\"(private)\"}"
  const HIDDEN_RESULT := "(private)"

  function DisplayInput(private: bool, input: string): string { if private then HIDDEN_INPUT else input }

  function DisplayResult(private: bool, content: string): string { if private then HIDDEN_RESULT else content }

  /** m is written by a named agent, and that agent is not v.self. */
  predicate Other(v: View, m: Message) {
    m.role == Assistant && m.agentId != "" && m.agentId != v.self
  }

  /** m is not by another agent, and names a user who is not v.user: its private parts are hidden. */
  predicate ForAnotherUser(v: View, m: Message) {
    m.role == Assistant && !Other(v, m) && m.userId != "" && m.userId != v.user
  }

  function Or(s: string, t: string): string { if s != "" then s else t }

  function AgentLabel(name: string, mention: string): string {
    if mention == "" then "agent " + name else "agent " + name + " (@" + mention + ")"
  }

  function LabelOf(v: View, m: Message): string {
    if m.agentId in v.agents then AgentLabel(v.agents[m.agentId].name, v.agents[m.agentId].mention)
    else AgentLabel(Or(m.author, m.agentId), "")
  }

  /** The bytes of a character in UTF-8. */
  function Width(c: char): nat {
    if c < '\U{80}' then 1 else if c < '\U{800}' then 2 else if c < '\U{10000}' then 3 else 4
  }

  function Bytes(s: string): nat { if s == [] then 0 else Bytes(s[..|s| - 1]) + Width(s[|s| - 1]) }

  /** How many characters of s fit in n bytes. */
  function Fit(s: string, n: nat): (k: nat)
    ensures k <= |s| && Bytes(s[..k]) <= n && (k < |s| ==> Bytes(s[..k + 1]) > n)
  {
    if Bytes(s) <= n then assert s[..|s|] == s; |s|
    else
      var k := Fit(s[..|s| - 1], n);
      assert s[..|s| - 1][..k] == s[..k] && s[..|s|] == s;
      assert k < |s| - 1 ==> s[..|s| - 1][..k + 1] == s[..k + 1];
      k
  }

  /** Text shortened to n bytes, between two characters, marked as such. */
  function Clip(s: string, n: nat): string { if Bytes(s) <= n then s else s[..Fit(s, n)] + "\U{2026}" }

  function MessageText(c: Content): string {
    match c
    case Absent => ""
    case Null => ""
    case Plain(text) => text
    case Structured(raw) => raw
  }

  const SECOND := 1_000_000_000
  const MINUTE := 60 * SECOND

  /** The words for t's state, then the time it lasted, in seconds or minutes, when both are given. */
  function TaskOutcome(t: TaskRef): string {
    var after :=
      if t.started == "" || t.lasted <= 0 then ""
      else if t.lasted < MINUTE then " after " + Itoa(t.lasted / SECOND) + " s"
      else " after " + Itoa((t.lasted + MINUTE / 2) / MINUTE) + " min";
    if t.state == "failed" then "failed" + after
    else if t.state == "cancelled" then "cancelled by " + Or(t.cancelledBy, "a member") + after + ": it was not finished"
    else "done" + after
  }

  function FollowUpLines(fs: seq<FollowUp>): string {
    if fs == [] then "" else
    var f := fs[|fs| - 1];
    FollowUpLines(fs[..|fs| - 1]) + "\n- " + (if f.userName != "" then "(" + f.userName + ") " else "") + f.text
  }

  function NameOf(v: View, id: string): string {
    if id in v.agents then AgentLabel(v.agents[id].name, v.agents[id].mention) else AgentLabel(id, "")
  }

  const NO_TASK := TaskRef("", "", "", "", 0, "", "", [], None)

  function FileText(f: TaskFile): string {
    "\n[The whole result (" + Itoa(f.size) + " bytes) is the file " + f.name + " (id " + f.id
      + "), published in this session: " + "above is its start.]"
  }

  function FileLine(file: Option<TaskFile>): string { match file case None => "" case Some(f) => FileText(f) }

  /** What a task was, who started it for whom, and when. */
  function TaskStart(v: View, m: Message, t: TaskRef, mine: bool): string {
    "[Task result: " + Or(t.tool, "a tool") + (if t.summary != "" then " (" + t.summary + ")" else "")
      + ", a background task " + (if mine then "you" else NameOf(v, m.agentId)) + " started"
      + (if t.requestedBy != "" then " for " + t.requestedBy else "") + (if t.started != "" then " at " + t.started else "")
  }

  function TaskHead(v: View, m: Message, t: TaskRef, mine: bool): string {
    TaskStart(v, m, t, mine) + ", " + TaskOutcome(t) + ". Not a message from a person.]"
  }

  function Instructions(t: TaskRef): string {
    if t.followUps == [] then "" else "\nInstructions to apply now, " + "attached while it ran:" + FollowUpLines(t.followUps)
  }

  /** The text of m, a task's end: its outcome and instructions, the report clipped unless the reader started the task. */
  function TaskText(v: View, m: Message): string {
    var t := match m.task case Some(t) => t case None => NO_TASK;
    var mine := m.agentId == "" || m.agentId == v.self;
    var text := if mine then MessageText(m.content) else Clip(MessageText(m.content), MAX_OTHER_TOOL_RESULT);
    TaskHead(v, m, t, mine) + (if mine then Instructions(t) else "")
      + (if text != "" then "\n" + text else "") + (if mine then FileLine(t.file) else "")
  }

  /** An entry of the first pass for a call ID: the tool called, and the label of who called it. */
  datatype OtherCall = OtherCall(tool: string, agent: string)

  /** What the first pass learns of the calls, by their IDs. */
  datatype Calls = Calls(others: map<string, OtherCall>, hidden: set<string>, called: set<string>)

  function AddCall(v: View, m: Message, tc: ToolCall, c: Calls): Calls {
    Calls(
      if Other(v, m) then c.others[tc.id := OtherCall(tc.name, LabelOf(v, m))] else c.others,
      if ForAnotherUser(v, m) && tc.name in v.private then c.hidden + {tc.id} else c.hidden,
      c.called + {tc.id})
  }

  function AddCalls(v: View, m: Message, calls: seq<ToolCall>, c: Calls): Calls {
    if calls == [] then c
    else AddCall(v, m, calls[|calls| - 1], AddCalls(v, m, calls[..|calls| - 1], c))
  }

  function CallsOf(v: View, ms: seq<Message>): Calls {
    if ms == [] then Calls(map[], {}, {})
    else AddCalls(v, ms[|ms| - 1], ms[|ms| - 1].calls, CallsOf(v, ms[..|ms| - 1]))
  }

  // --- The second pass ---

  function PlainUserText(cm: ChatMessage): Option<string> {
    if cm.role != User || cm.result.Some? || |cm.calls| > 0 then None
    else match cm.content
      case Plain(text) => Some(text)
      case Null => Some("")
      case _ => None
  }

  /** result with text at its end: nothing when text is empty, within the last message when that is plain user text. */
  function AppendUserText(result: seq<ChatMessage>, text: string): seq<ChatMessage> {
    if text == "" then result
    else if |result| > 0 && PlainUserText(result[|result| - 1]).Some? then
      result[..|result| - 1] + [UserText(PlainUserText(result[|result| - 1]).value + "\n\n" + text)]
    else result + [UserText(text)]
  }

  function UserText(text: string): ChatMessage { ChatMessage(User, Plain(text), [], None) }

  function Join(lines: seq<string>): string {
    if lines == [] then "" else if |lines| == 1 then lines[0] else lines[0] + "\n" + Join(lines[1..])
  }

  function CallLines(v: View, who: string, calls: seq<ToolCall>): seq<string> {
    if calls == [] then [] else
    var tc := calls[|calls| - 1];
    var input := DisplayInput(tc.name in v.private, tc.input);
    CallLines(v, who, calls[..|calls| - 1]) +
      ["[" + who + " called " + tc.name + " " + Clip(Or(input, "{}"), MAX_OTHER_TOOL_INPUT) + "]"]
  }

  /** Another agent's assistant message as text: its answer, then each tool call. */
  function OtherTurn(v: View, m: Message): string {
    var who, text := LabelOf(v, m), MessageText(m.content);
    Join((if text != "" then ["[" + who + "] " + text] else []) + CallLines(v, who, m.calls))
  }

  /** The result of another agent's tool call as text. */
  function OtherResult(call: OtherCall, r: ToolResult, private: bool): string {
    "[" + (if r.isError then "error from" else "result of") + " " + call.tool + ", called by " + call.agent + "] "
      + Clip(DisplayResult(private, r.content), MAX_OTHER_TOOL_RESULT)
  }

  /** A fork's starting summary, said to be one. */
  function ContextText(text: string): string {
    "[Context carried over from an " + "earlier conversation this one " + "was forked from. A summary, " + "not a message from the user.]\n\n" + text
  }

  function AsForkContext(c: Content): Content {
    match c
    case Plain(text) => Plain(ContextText(text))
    case Null => Plain(ContextText(""))
    case _ => c
  }

  /** A fork's report, said to be one. */
  function ReportText(m: Message, text: string): string {
    "[Report from fork \U{AB} " + Or(m.forkTitle, "untitled") + " \U{BB} by " + Or(m.author, "a member")
      + ". A summary of the work done " + "in that forked conversation, " + "posted here for the record; " + "not a request to you.]\n\n" + text
  }

  function AsForkReport(c: Content, m: Message): Content {
    match c
    case Plain(text) => Plain(ReportText(m, text))
    case Null => Plain(ReportText(m, ""))
    case _ => c
  }

  function WithAuthor(c: Content, author: string): Content {
    match c
    case Plain(text) => if text == "" then c else Plain("[" + author + "] " + text)
    case _ => c
  }

  function Framed(m: Message): Content {
    if m.kind == ForkSummary then AsForkContext(m.content)
    else if m.kind == ForkReport then AsForkReport(m.content, m)
    else if m.role == User && m.author != "" then WithAuthor(m.content, m.author)
    else m.content
  }

  function DisplayCalls(hidden: set<string>, calls: seq<ToolCall>): (r: seq<ToolCall>)
    ensures |r| == |calls|
    ensures forall i :: 0 <= i < |r| ==> r[i].id == calls[i].id && r[i].name == calls[i].name
  {
    seq(|calls|, i requires 0 <= i < |calls| => calls[i].(input := DisplayInput(calls[i].id in hidden, calls[i].input)))
  }

  /** A message of the reader's, or of nobody's, as the API takes it. */
  function OwnMessage(c: Calls, m: Message): ChatMessage {
    ChatMessage(m.role, Framed(m), DisplayCalls(c.hidden, m.calls),
      match m.result
      case None => None
      case Some(r) => Some(r.(content := DisplayResult(r.callId in c.hidden || r.callId !in c.called, r.content))))
  }

  /** What a message adds to what the model reads: user text, possibly none, or a message of its own. */
  datatype Reading = Words(text: string) | Block(cm: ChatMessage)

  function Read(v: View, c: Calls, m: Message): Reading {
    if m.kind == TurnEnd then Words("")
    else if m.kind == TaskResult then Words(TaskText(v, m))
    else if Other(v, m) then Words(OtherTurn(v, m))
    else if m.result.Some? && m.result.value.callId in c.others then
      var call := c.others[m.result.value.callId];
      Words(OtherResult(call, m.result.value, call.tool in v.private))
    else
      var cm := OwnMessage(c, m);
      if PlainUserText(cm).Some? then Words(PlainUserText(cm).value) else Block(cm)
  }

  /** One message, after what the ones before it gave. */
  function Step(v: View, c: Calls, out: seq<ChatMessage>, m: Message): seq<ChatMessage> {
    match Read(v, c, m)
    case Words(text) => AppendUserText(out, text)
    case Block(cm) => out + [cm]
  }

  function Translate(v: View, c: Calls, ms: seq<Message>): seq<ChatMessage> {
    if ms == [] then [] else Step(v, c, Translate(v, c, ms[..|ms| - 1]), ms[|ms| - 1])
  }

  /** What the model of v.self reads of the conversation ms. */
  function Converted(v: View, ms: seq<Message>): seq<ChatMessage> {
    Translate(v, CallsOf(v, ms), ms)
  }

  /** The first pass: tool results carry no agent nor user, they are found by their calls. */
  method Collect(messages: seq<Message>, v: View) returns (c: Calls)
    ensures c == CallsOf(v, messages)
  {
    var others: map<string, OtherCall> := map[];
    var hidden: set<string> := {};
    var called: set<string> := {};
    for i := 0 to |messages|
      invariant Calls(others, hidden, called) == CallsOf(v, messages[..i])
    {
      var m := messages[i];
      assert messages[..i + 1][..i] == messages[..i];
      for j := 0 to |m.calls|
        invariant Calls(others, hidden, called) == AddCalls(v, m, m.calls[..j], CallsOf(v, messages[..i]))
      {
        var tc := m.calls[j];
        assert m.calls[..j + 1][..j] == m.calls[..j];
        called := called + {tc.id};
        if Other(v, m) {
          others := others[tc.id := OtherCall(tc.name, LabelOf(v, m))];
        }
        if ForAnotherUser(v, m) && tc.name in v.private {
          hidden := hidden + {tc.id};
        }
      }
      assert m.calls[..|m.calls|] == m.calls;
    }
    assert messages[..|messages|] == messages;
    c := Calls(others, hidden, called);
  }

  /** A message kept as a message: its calls and its result as the members see them. */
  method Keep(m: Message, c: Calls) returns (cm: ChatMessage)
    ensures cm == OwnMessage(c, m)
  {
    var content := m.content;
    if m.kind == ForkSummary {
      content := AsForkContext(content);
    } else if m.kind == ForkReport {
      content := AsForkReport(content, m);
    } else if m.role == User && m.author != "" {
      content := WithAuthor(content, m.author);
    }
    var calls: seq<ToolCall> := [];
    for i := 0 to |m.calls|
      invariant |calls| == i
      invariant forall k :: 0 <= k < i ==> calls[k] == DisplayCalls(c.hidden, m.calls)[k]
    {
      calls := calls + [m.calls[i].(input := DisplayInput(m.calls[i].id in c.hidden, m.calls[i].input))];
    }
    assert calls == DisplayCalls(c.hidden, m.calls);
    cm := ChatMessage(m.role, content, calls, None);
    if m.result.Some? {
      var r := m.result.value;
      cm := cm.(result := Some(ToolResult(r.callId, DisplayResult(r.callId in c.hidden || r.callId !in c.called, r.content), r.isError)));
    }
  }

  /** The program's two passes. */
  method Convert(messages: seq<Message>, v: View) returns (result: seq<ChatMessage>)
    ensures result == Converted(v, messages)
  {
    var c := Collect(messages, v);
    result := [];
    for i := 0 to |messages|
      invariant result == Translate(v, c, messages[..i])
    {
      var m := messages[i];
      assert messages[..i + 1][..i] == messages[..i];
      if m.kind == TurnEnd {
        continue; // for the members and the participants: never the model's
      }
      if m.kind == TaskResult {
        result := AppendUserText(result, TaskText(v, m));
        continue;
      }
      if Other(v, m) {
        result := AppendUserText(result, OtherTurn(v, m));
        continue;
      }
      if m.result.Some? && m.result.value.callId in c.others {
        var call := c.others[m.result.value.callId];
        result := AppendUserText(result, OtherResult(call, m.result.value, call.tool in v.private));
        continue;
      }
      var cm := Keep(m, c);
      var text := PlainUserText(cm);
      if text.Some? {
        result := AppendUserText(result, text.value);
        continue;
      }
      result := result + [cm];
    }
    assert messages[..|messages|] == messages;
  }
}
