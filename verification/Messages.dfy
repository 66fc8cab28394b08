/** A session's stored messages (store/message.go) and what a model reads of them (provider). */
module Messages {
  import opened Text
  import opened Keys

  datatype Role = User | Assistant | Tool

  datatype Kind = Ordinary | ForkSummary | TurnEnd | ForkReport | TaskResult

  /** A message's content, JSON in the store: none at all, null, a string, or anything else. */
  datatype Content = Absent | Null | Plain(text: string) | Structured(raw: string)

  datatype ToolCall = ToolCall(id: string, name: string, input: string)

  datatype ToolResult = ToolResult(callId: string, content: string, isError: bool)

  /** An instruction attached to a background task while it ran, and who attached it. */
  datatype FollowUp = FollowUp(text: string, userName: string)

  datatype TaskFile = TaskFile(id: string, name: string, size: nat)

  /** The background task a message ends: started is when it began, as shown, "" when unknown; lasted is how
      long it ran, in nanoseconds. */
  datatype TaskRef = TaskRef(
    tool: string, summary: string, requestedBy: string, started: string, lasted: int,
    state: string, cancelledBy: string, followUps: seq<FollowUp>, file: Option<TaskFile>)

  /** The fields of a stored message that decide what a model reads. */
  datatype Message = Message(
    role: Role,
    content: Content,
    userId: string,
    agentId: string,
    author: string,
    kind: Kind,
    calls: seq<ToolCall>,
    result: Option<ToolResult>,
    forkTitle: string,
    task: Option<TaskRef>)

  /** A stored row: its ID, the key it is stored under, its message. */
  datatype Entry = Entry(id: int, key: Key, msg: Message)

  /** A message as the model's API takes it. */
  datatype ChatMessage = ChatMessage(role: Role, content: Content, calls: seq<ToolCall>, result: Option<ToolResult>)

  function CallIds(calls: seq<ToolCall>): (ids: seq<string>)
    ensures |ids| == |calls|
    ensures forall i :: 0 <= i < |calls| ==> ids[i] == calls[i].id
  {
    seq(|calls|, i requires 0 <= i < |calls| => calls[i].id)
  }

  function Msgs(entries: seq<Entry>): (ms: seq<Message>)
    ensures |ms| == |entries| && forall i :: 0 <= i < |ms| ==> ms[i] == entries[i].msg
  {
    seq(|entries|, i requires 0 <= i < |entries| => entries[i].msg)
  }
}
